/** Counting: which callables ran, which delivered, and how the step counter relates. */
module Ledger {
  import opened Values
  import opened Ordering
  import opened Protocol
  import opened Topology
  import opened Engine
  import opened Consequences
  import opened Refinement
  import JoinLaws

  /** `starts` node starts observed, `fanned` branches announced by regions, `calls`
      node callables entered, `branchCalls` those inside regions, `delivered` and
      `errored` node callables left with and without a delta, `dones` final observations
      of a finished run. */
  datatype Tally = Tally(
    starts: nat, fanned: nat, calls: nat, branchCalls: nat, delivered: nat, errored: nat, dones: nat)

  const NOTHING := Tally(0, 0, 0, 0, 0, 0, 0)

  function Enter(t: Tally, e: Event): Tally {
    match e
    case Observed(NodeStart(_, _, _)) => t.(starts := t.starts + 1)
    case Observed(SuperstepStart(_, _, _, branches, _)) => t.(fanned := t.fanned + |branches|)
    case Observed(Done(_, _)) => t.(dones := t.dones + 1)
    case Entered(site) =>
      if !site.boundary.AtNode? then t
      else t.(calls := t.calls + 1, branchCalls := t.branchCalls + if site.source.Some? then 1 else 0)
    case Left(_, ok) => if ok then t.(delivered := t.delivered + 1) else t.(errored := t.errored + 1)
    case _ => t
  }

  function Count(log: Log): Tally {
    if log == [] then NOTHING else Enter(Count(log[..|log| - 1]), log[|log| - 1])
  }

  lemma CountNothing()
    ensures Count([]) == NOTHING
  {
  }

  lemma CountSnoc(log: Log, e: Event)
    ensures Count(log + [e]) == Enter(Count(log), e)
  {
    assert (log + [e])[..|log|] == log;
  }

  lemma {:induction false} CountsObservations(log: Log)
    ensures Count(log).starts == |Started(Obs(log))| && Count(log).fanned == Fanned(Obs(log))
  {
    if log != [] {
      var front, last := log[..|log| - 1], log[|log| - 1];
      CountsObservations(front);
      assert log == front + [last];
      ObsSnoc(front, last);
      if last.Observed? {
        assert Obs(log)[..|Obs(log)| - 1] == Obs(front);
      }
    }
  }

  /** Every callable entered was started first. */
  predicate Covered(t: Tally) { t.calls <= t.starts && t.branchCalls <= t.fanned && t.dones == 0 }

  /** Between turns every callable started was entered and left, and those that
      delivered a delta are the steps. */
  predicate Balanced(t: Tally, steps: nat) {
    && t.starts == t.calls == t.delivered + t.errored
    && t.branchCalls == t.fanned
    && t.delivered == steps && t.dones == 0
  }

  /** From one turn to a later moment of the next: callables that fail are only added, and
      at most as many were started as the budget and the failures before the turn allow. */
  predicate Bounded(max: int, before: Tally, after: Tally) {
    before.errored <= after.errored && after.starts <= Budget(max) + before.errored
  }

  /** The join lets the region commit only if every branch succeeded. */
  predicate Strict(edge: Edge)
    requires edge.FanOut?
  {
    edge.join.JoinAll? || (edge.join.Quorum? && edge.join.n >= |edge.branches|)
  }

  // ----- what does not count -----

  lemma PermitCounts(gate: Gate, log: Log, request: DispatchRequest, state: State, node: string, steps: nat)
    ensures Count(Permit(gate, log, request, state, node, steps).log) == Count(log)
  {
    hide Count;
    if gate.Gate? {
      var answer := gate.dispatch(log, request);
      var e := Decided(request, answer);
      CountSnoc(log, e);
      if answer.Says? && answer.decision.Stop? {
        HaltCounts<()>(log + [e], state, node, steps, answer.decision.reason);
      }
    }
  }

  lemma HaltCounts<T>(log: Log, state: State, node: string, steps: nat, reason: string)
    ensures Count(Halt<T>(log, state, node, steps, reason).log) == Count(log)
  {
    hide Count;
    var f := Halt<T>(log, state, node, steps, reason);
    if f.Ended? { CountSnoc(log, f.log[|log|]); }
  }

  lemma InterruptCounts<T>(log: Log, state: State, node: string, steps: nat, branches: seq<string>, fault: Fault)
    requires fault.Interrupt?
    ensures Count(InterruptRun<T>(log, state, node, steps, branches, fault).log) == Count(log)
  {
    hide Count;
    var f := InterruptRun<T>(log, state, node, steps, branches, fault);
    if f.Ended? { CountSnoc(log, f.log[|log|]); }
  }

  lemma MarkCounts(gate: Gate, log: Log, request: DispatchRequest)
    ensures Count(Mark(gate, log, request).log) == Count(log)
  {
    hide Count;
    if gate.Durable() { CountSnoc(log, Marked(request, gate.start.value(log, request))); }
  }

  lemma GuardCounts(gate: Gate, log: Log, request: DispatchRequest, state: State, node: string, steps: nat)
    ensures var f := Guard(gate, log, request, state, node, steps);
            Count(f.log) == if f.Go? then Enter(Count(log), Entered(request)) else Count(log)
  {
    hide Count, Permit, Mark;
    PermitCounts(gate, log, request, state, node, steps);
    var f := Permit(gate, log, request, state, node, steps);
    if f.Go? {
      MarkCounts(gate, f.log, request);
      CountSnoc(Mark(gate, f.log, request).log, Entered(request));
    }
  }

  lemma CommitCounts(gate: Gate, log: Log, request: CommitRequest, state: State, node: string, steps: nat)
    ensures Count(Commit(gate, log, request, state, node, steps).log) == Count(log)
  {
    hide Count;
    if gate.Gate? {
      var answer := gate.commit(log, request);
      var e := CommitDecided(request, answer);
      CountSnoc(log, e);
      if answer.Says? && answer.decision.Stop? {
        HaltCounts<()>(log + [e], state, node, steps, answer.decision.reason);
      }
    }
  }

  lemma AfterCommitCounts(gate: Gate, log: Log, request: CommitRequest)
    ensures Count(AfterCommit(gate, log, request).0) == Count(log)
  {
    hide Count;
    if gate.Gate? && gate.settle.Some? { CountSnoc(log, Settled(request, gate.settle.value(log, request))); }
  }

  // ----- a node -----

  lemma NodeCounts(ctx: Ctx, state: State, steps: nat, node: string, log: Log)
    requires Balanced(Count(log), steps)
    ensures var f := RunNode(ctx, state, steps, node, log);
            && Covered(Count(f.log))
            && (steps < ctx.graph.maxSteps ==> Bounded(ctx.graph.maxSteps, Count(log), Count(f.log)))
            && (f.Go? ==>
                  && Balanced(Count(f.log), steps + 1)
                  && Count(f.log).errored == Count(log).errored && Count(f.log).starts == Count(log).starts + 1)
  {
    hide Count, Guard, PublishNode, InterruptRun;
    var visited := Visit(state, [node]);
    if node in ctx.graph.nodes && visited.Some? {
      var running := visited.value;
      var site := NodeSite(node, steps);
      var started := log + [Observed(NodeStart(node, steps, running))];
      CountSnoc(log, Observed(NodeStart(node, steps, running)));
      GuardCounts(ctx.gate, started, site, running, node, steps);
      var entered := Guard(ctx.gate, started, site, running, node, steps);
      if entered.Go? {
        var answer := ctx.graph.nodes[node].call(running);
        CountSnoc(entered.log, Left(site, answer.Delivers?));
        var left := entered.log + [Left(site, answer.Delivers?)];
        match answer
        case NodeThrows(fault) =>
          if fault.Interrupt? { InterruptCounts<State>(left, running, node, steps, [], fault); }
        case DeliversOther =>
        case Delivers(delta) => PublishCounts(ctx.gate, running, steps, node, delta, left);
      }
    }
  }

  lemma PublishCounts(gate: Gate, running: State, steps: nat, node: string, delta: Delta, log: Log)
    ensures Count(PublishNode(gate, running, steps, node, delta, log).log) == Count(log)
  {
    hide Count, Commit, AfterCommit;
    var request := CommitRequest(NodeCommit, [node], steps, None, Sha256(delta), None);
    CommitCounts(gate, log, request, running, node, steps);
    var allowed := Commit(gate, log, request, running, node, steps);
    AfterCommitCounts(gate, allowed.log, request);
    CountSnoc(AfterCommit(gate, allowed.log, request).0,
              Observed(NodeEnd(node, steps + 1, Merge(running, delta), delta)));
  }

  // ----- branch tasks -----

  function HasEntered(t: Task): nat { if t.Running? || (t.Finished? && !HeldBack(t.outcome)) then 1 else 0 }
  function HasDelivered(t: Task): nat { if t.Finished? && t.outcome.Ok? then 1 else 0 }
  function HasErrored(t: Task): nat { if t.Finished? && t.outcome.Failed? then 1 else 0 }

  function Sum(tasks: seq<Task>, weight: Task -> nat): nat {
    if tasks == [] then 0 else weight(tasks[0]) + Sum(tasks[1..], weight)
  }

  lemma {:induction false} SumUpdate(tasks: seq<Task>, weight: Task -> nat, i: nat, task: Task)
    requires i < |tasks|
    ensures Sum(tasks[i := task], weight) == Sum(tasks, weight) - weight(tasks[i]) + weight(task)
  {
    if i == 0 {
      assert tasks[0 := task][1..] == tasks[1..];
    } else {
      assert tasks[i := task][1..] == tasks[1..][i - 1 := task];
      SumUpdate(tasks[1..], weight, i - 1, task);
    }
  }

  /** `after` is `before` plus what the tasks did between `tasks` and `later`. */
  ghost predicate Moved(before: Tally, tasks: seq<Task>, after: Tally, later: seq<Task>) {
    && after.starts == before.starts && after.fanned == before.fanned && after.dones == before.dones
    && after.calls + Sum(tasks, HasEntered) == before.calls + Sum(later, HasEntered)
    && after.branchCalls + Sum(tasks, HasEntered) == before.branchCalls + Sum(later, HasEntered)
    && after.delivered + Sum(tasks, HasDelivered) == before.delivered + Sum(later, HasDelivered)
    && after.errored + Sum(tasks, HasErrored) == before.errored + Sum(later, HasErrored)
  }

  lemma StepCounts(ctx: Ctx, region: Region, i: nat, task: Task, log: Log)
    requires i < |region.branches| && region.In(ctx.graph) && !task.Finished?
    ensures var (next, stepped) := StepTask(ctx, region, i, task, log);
            var a, b := Count(log), Count(stepped);
            && b.starts == a.starts && b.fanned == a.fanned && b.dones == a.dones
            && b.calls + HasEntered(task) == a.calls + HasEntered(next)
            && b.branchCalls + HasEntered(task) == a.branchCalls + HasEntered(next)
            && b.delivered == a.delivered + HasDelivered(next)
            && b.errored == a.errored + HasErrored(next)
  {
    hide Count, Call;
    var site := region.Site(i);
    match task
    case Fresh =>
      if ctx.gate.Durable() { CountSnoc(log, Decided(site, ctx.gate.dispatch(log, site))); }
      else { CountSnoc(log, Entered(site)); }
    case Admitted =>
      MarkCounts(ctx.gate, log, site);
      CountSnoc(Mark(ctx.gate, log, site).log, Entered(site));
    case Running =>
      RunningCounts(ctx, region, i, log);
  }

  lemma RunningCounts(ctx: Ctx, region: Region, i: nat, log: Log)
    requires i < |region.branches| && region.In(ctx.graph)
    ensures var (next, stepped) := StepTask(ctx, region, i, Running, log);
            var a, b := Count(log), Count(stepped);
            && b == a.(delivered := a.delivered + HasDelivered(next), errored := a.errored + HasErrored(next))
            && HasEntered(next) == 1
  {
    hide Count;
    CountSnoc(log, Left(region.Site(i), Call(ctx.graph, region, i).Ok?));
  }

  lemma {:induction false} SettleCounts(ctx: Ctx, region: Region, tasks: seq<Task>, log: Log)
    requires |tasks| == |region.branches| && region.In(ctx.graph)
    ensures var (done, settled) := SettleAll(ctx, region, tasks, log);
            Moved(Count(log), tasks, Count(settled), done)
    decreases Work(tasks)
  {
    hide Count, StepTask, HasEntered, HasDelivered, HasErrored;
    if !AllFinished(tasks) {
      var i := Choose(tasks, ctx.pick(log));
      var (task, stepped) := StepTask(ctx, region, i, tasks[i], log);
      WorkUpdate(tasks, i, task);
      StepCounts(ctx, region, i, tasks[i], log);
      Unsettled(tasks[i]);
      SumUpdate(tasks, HasEntered, i, task);
      SumUpdate(tasks, HasDelivered, i, task);
      SumUpdate(tasks, HasErrored, i, task);
      SettleCounts(ctx, region, tasks[i := task], stepped);
    }
  }

  lemma Unsettled(t: Task)
    requires !t.Finished?
    ensures HasDelivered(t) == 0 && HasErrored(t) == 0
  {
  }

  lemma {:induction false} FreshSums(n: nat)
    ensures Sum(FreshTasks(n), HasEntered) == Sum(FreshTasks(n), HasDelivered) == Sum(FreshTasks(n), HasErrored) == 0
  {
    if n > 0 {
      FreshSums(n - 1);
      assert FreshTasks(n)[1..] == FreshTasks(n - 1);
    }
  }

  /** The totals of settled tasks, read off their outcomes. */
  lemma {:induction false} SettledSums(branches: seq<string>, tasks: seq<Task>)
    requires AllFinished(tasks) && |branches| == |tasks|
    ensures Sum(tasks, HasEntered) <= |tasks|
    ensures Sum(tasks, HasEntered) == Sum(tasks, HasDelivered) + Sum(tasks, HasErrored)
    ensures Sum(tasks, HasDelivered) == |Successes(branches, Outcomes(tasks))|
    ensures (forall o <- Outcomes(tasks) :: !HeldBack(o)) ==> Sum(tasks, HasEntered) == |tasks|
  {
    if tasks != [] {
      var rest := tasks[1..];
      assert forall t <- rest :: t in tasks;
      SettledSums(branches[1..], rest);
      assert Outcomes(tasks)[1..] == Outcomes(rest);
      assert Outcomes(tasks)[0] == tasks[0].outcome;
      assert forall o <- Outcomes(rest) :: o in Outcomes(tasks);
    }
  }

  // ----- a region -----

  lemma {:induction false} StartsCount(log: Log, region: Region, n: nat)
    requires n <= |region.branches|
    ensures Count(log + StartEvents(region, n)) == Count(log).(starts := Count(log).starts + n)
  {
    hide Count;
    if n == 0 {
      assert log + StartEvents(region, 0) == log;
    } else {
      StartsCount(log, region, n - 1);
      var e := Observed(NodeStart(region.branches[n - 1], region.steps, region.snapshot));
      assert log + StartEvents(region, n) == (log + StartEvents(region, n - 1)) + [e];
      CountSnoc(log + StartEvents(region, n - 1), e);
    }
  }

  lemma EnterReducerCounts(ctx: Ctx, region: Region, state: State, completed: nat, items: seq<Contribution>,
                           key: string,
                           log: Log)
    ensures Count(EnterReducer(ctx, region, state, completed, items, key, log).log) == Count(log)
  {
    hide Count, Guard;
    var site := region.Request(AtReducer, Names(items) + [key], completed);
    CountSnoc(log, Entered(site));
    GuardCounts(ctx.gate, log, site, state, region.source, region.steps);
  }

  lemma {:induction false} FoldCounts(ctx: Ctx, region: Region, state: State, completed: nat, items: seq<Contribution>,
                                      keys: seq<string>, acc: Fold, log: Log)
    requires forall k <- keys :: k in Keys(items)
    ensures Count(FoldKeys(ctx, region, state, completed, items, keys, acc, log).log) == Count(log)
    decreases |keys|
  {
    hide Count, EnterReducer;
    if keys != [] {
      EnterReducerCounts(ctx, region, state, completed, items, keys[0], log);
      var one := FoldKey(ctx, region, state, completed, items, keys[0], acc, log);
      if one.Go? { FoldCounts(ctx, region, state, completed, items, keys[1..], one.value, one.log); }
    }
  }

  lemma {:induction false} EndsCount(log: Log, items: seq<Contribution>, completed: nat, committed: State, n: nat)
    requires n <= |items|
    ensures Count(log + EndEvents(items, completed, committed)[..n]) == Count(log)
  {
    hide Count;
    var events := EndEvents(items, completed, committed);
    if n == 0 {
      assert log + events[..0] == log;
    } else {
      EndsCount(log, items, completed, committed, n - 1);
      assert log + events[..n] == (log + events[..n - 1]) + [events[n - 1]];
      CountSnoc(log + events[..n - 1], events[n - 1]);
    }
  }

  lemma CommitRegionCounts(ctx: Ctx, region: Region, edge: Edge, state: State, completed: nat,
                           items: seq<Contribution>, fold: Fold, log: Log)
    requires edge.FanOut?
    ensures Count(CommitRegion(ctx, region, edge, state, completed, items, fold, log).log) == Count(log)
  {
    hide Count, Commit, AfterCommit, EndEvents;
    var request := CommitRequest(RegionCommit, Names(items), completed, Some(region.source), Sha256(fold.merged),
                                 Some(region.batch));
    CommitCounts(ctx.gate, log, request, state, region.source, region.steps);
    var allowed := Commit(ctx.gate, log, request, state, region.source, region.steps);
    AfterCommitCounts(ctx.gate, allowed.log, request);
    var settled := AfterCommit(ctx.gate, allowed.log, request).0;
    var committed := Merge(region.snapshot, fold.merged);
    EndsCount(settled, items, completed, committed, |items|);
    var ends := EndEvents(items, completed, committed);
    assert ends[..|items|] == ends;
    CountSnoc(settled + ends, Observed(SuperstepCommit(region.source, edge.next, completed, Names(items), committed,
                                                       fold.merged, fold.provenance)));
  }

  lemma FoldRegionCounts(ctx: Ctx, region: Region, edge: Edge, state: State, completed: nat, items: seq<Contribution>,
                         log: Log)
    requires edge.FanOut? && region.steps <= completed
    ensures Count(FoldRegion(ctx, region, edge, state, completed, items, log).log) == Count(log)
  {
    hide Count, Permit, FoldKeys, CommitRegion;
    var request := region.Request(AtReducer, Names(items), completed);
    PermitCounts(ctx.gate, log, request, state, region.source, region.steps);
    var allowed := Permit(ctx.gate, log, request, state, region.source, region.steps);
    if allowed.Go? {
      var keys, none := SortedKeys(Keys(items)), Fold(map[], map[]);
      FoldCounts(ctx, region, state, completed, items, keys, none, allowed.log);
      var folded := FoldKeys(ctx, region, state, completed, items, keys, none, allowed.log);
      if folded.Go? { CommitRegionCounts(ctx, region, edge, state, completed, items, folded.value, folded.log); }
    }
  }

  lemma JoinCounts(ctx: Ctx, region: Region, edge: Edge, state: State, settled: seq<Settlement>, log: Log)
    requires edge.FanOut? && |settled| == |region.branches|
    ensures var f := JoinRegion(ctx, region, edge, state, settled, log);
            && Count(f.log) == Count(log)
            && (f.Go? ==> f.value.steps == region.steps + |Successes(region.branches, settled)|)
  {
    hide Count, Guard, Admit, FoldRegion;
    var completed := region.steps + |Successes(region.branches, settled)|;
    GuardCounts(ctx.gate, log, region.Request(AtJoin, region.branches, completed), state, region.source, region.steps);
    var joined := GuardJoin(ctx, region, edge.join, state, completed, log);
    if joined.Go? {
      var r := Admit(region.source, edge.join, region.branches, settled);
      if r.Success? { FoldRegionCounts(ctx, region, edge, state, completed, r.value, joined.log); }
    }
  }

  lemma CloseCounts(ctx: Ctx, region: Region, edge: Edge, state: State, settled: seq<Settlement>, log: Log)
    requires edge.FanOut? && |settled| == |region.branches|
    ensures var f := CloseRegion(ctx, region, edge, state, settled, log);
            && Count(f.log) == Count(log)
            && (f.Go? ==>
                  && f.value.steps == region.steps + |Successes(region.branches, settled)|
                  && forall o <- settled :: !HeldBack(o))
  {
    hide Count, JoinRegion, Halt, InterruptRun, AdmissionErrors, StartErrors, StopReasons, FirstInterrupt;
    var stops, paused := StopReasons(settled), FirstInterrupt(settled);
    if AdmissionErrors(settled) != [] || StartErrors(settled) != [] {
    } else if stops != [] {
      HaltCounts<Progress>(log, state, region.source, region.steps, stops[0]);
    } else if paused < |settled| {
      InterruptCounts<Progress>(log, region.snapshot, region.branches[paused], region.steps, region.branches,
                                settled[paused].error.fault);
    } else {
      JoinCounts(ctx, region, edge, state, settled, log);
      forall i | 0 <= i < |settled| ensures !HeldBack(settled[i]) {
        if HeldBack(settled[i]) { HeldBackShows(settled, i); }
      }
    }
  }

  lemma {:induction false} AllCounted(settled: seq<Settlement>)
    ensures JoinLaws.CountOk(settled) <= |settled|
    ensures (forall o <- settled :: o.Ok?) ==> JoinLaws.CountOk(settled) == |settled|
  {
    if settled != [] {
      var front := settled[..|settled| - 1];
      assert settled[|settled| - 1] in settled && forall o <- front :: o in settled;
      AllCounted(front);
    }
  }

  /** A region with a strict join goes on only if every branch delivered. */
  lemma StrictCloses(ctx: Ctx, region: Region, edge: Edge, state: State, settled: seq<Settlement>, log: Log)
    requires edge.FanOut? && |settled| == |region.branches| == |edge.branches| > 0 && Strict(edge)
    requires forall o <- settled :: o.Ok? || o.Failed? || HeldBack(o)
    ensures CloseRegion(ctx, region, edge, state, settled, log).Go? ==>
              |Successes(region.branches, settled)| == |settled|
  {
    hide JoinRegion, Halt, InterruptRun, AdmissionErrors, StartErrors, StopReasons, FirstInterrupt, Successes;
    CloseCounts(ctx, region, edge, state, settled, log);
    if CloseRegion(ctx, region, edge, state, settled, log).Go? {
      JoinGoes(ctx, region, edge, state, settled, log);
      JoinLaws.AdmitDecides(region.source, edge.join, region.branches, settled);
      AllCounted(settled);
      JoinLaws.SuccessCount(region.branches, settled);
    }
  }

  lemma JoinGoes(ctx: Ctx, region: Region, edge: Edge, state: State, settled: seq<Settlement>, log: Log)
    requires edge.FanOut? && |settled| == |region.branches|
    ensures CloseRegion(ctx, region, edge, state, settled, log).Go? ==>
              Admit(region.source, edge.join, region.branches, settled).Success?
  {
    hide Halt, InterruptRun, AdmissionErrors, StartErrors, StopReasons, FirstInterrupt, Guard, Admit, FoldRegion;
  }

  /** From the permitted start of a region to its close: each branch is called at most once, and all
      of them if the region commits. */
  lemma GatheredCounts(ctx: Ctx, region: Region, edge: Edge, state: State, log: Log)
    requires edge.FanOut? && |region.branches| == |edge.branches| && region.In(ctx.graph)
    ensures var (done, settled) := SettleAll(ctx, region, FreshTasks(|region.branches|), log);
            var f := CloseRegion(ctx, region, edge, state, Outcomes(done), settled);
            var before, after := Count(log), Count(f.log);
            && after.starts == before.starts && after.fanned == before.fanned && after.dones == before.dones
            && after.calls - before.calls == after.branchCalls - before.branchCalls <= |region.branches|
            && before.errored <= after.errored
            && (f.Go? ==>
                  && after.calls == before.calls + |region.branches|
                  && after.calls - before.calls ==
                     (after.delivered - before.delivered) + (after.errored - before.errored)
                  && f.value.steps == region.steps + (after.delivered - before.delivered)
                  && (Strict(edge) && |edge.branches| > 0 ==> after.errored == before.errored))
  {
    hide Count, SettleAll, CloseRegion, Strict, Successes;
    var tasks := FreshTasks(|region.branches|);
    FreshSums(|region.branches|);
    SettleCounts(ctx, region, tasks, log);
    var (done, settled) := SettleAll(ctx, region, tasks, log);
    SettledSums(region.branches, done);
    CloseCounts(ctx, region, edge, state, Outcomes(done), settled);
    if Strict(edge) && |edge.branches| > 0 { StrictCloses(ctx, region, edge, state, Outcomes(done), settled); }
  }

  lemma RegionCounts(ctx: Ctx, source: string, edge: Edge, state: State, steps: nat, log: Log)
    requires edge.FanOut? && Balanced(Count(log), steps)
    ensures var f := RunRegion(ctx, source, edge, state, steps, log);
            && Covered(Count(f.log))
            && (steps <= ctx.graph.maxSteps ==> Bounded(ctx.graph.maxSteps, Count(log), Count(f.log)))
            && (f.Go? ==>
                  && Balanced(Count(f.log), f.value.steps) && f.value.steps <= ctx.graph.maxSteps
                  && Count(f.log).starts == Count(log).starts + |edge.branches|
                  && (Strict(edge) && |edge.branches| > 0 ==> Count(f.log).errored == Count(log).errored))
  {
    hide Count, Permit, SettleAll, CloseRegion, Strict;
    var begun := OpenRegion(ctx, source, edge, state, steps, log);
    if begun.Go? {
      var region := begun.value;
      var n := |region.branches|;
      var e := Observed(SuperstepStart(source, edge.next, steps, region.branches, region.snapshot));
      CountSnoc(log, e);
      StartsCount(log + [e], region, n);
      var request := region.Request(AtFanOut, region.branches, steps);
      PermitCounts(ctx.gate, begun.log, request, state, source, steps);
      var allowed := Permit(ctx.gate, begun.log, request, state, source, steps);
      if allowed.Go? {
        GatheredCounts(ctx, region, edge, state, allowed.log);
      }
    }
  }

  // ----- the run -----

  lemma RouteCounts(ctx: Ctx, source: string, edge: Edge, state: State, steps: nat, log: Log)
    ensures Count(Route(ctx, source, edge, state, steps, log).log) == Count(log)
  {
    hide Count, Guard, Resolve;
    var site := RouterSite(source, steps);
    GuardCounts(ctx.gate, log, site, state, source, steps);
    var entered := if edge.Conditional? then Guard(ctx.gate, log, site, state, source, steps) else Go(log, ());
    var r := Resolve(ctx.graph, edge, state);
    if entered.Go? && r.Success? {
      CountSnoc(entered.log, Observed(EdgeSelected(source, r.value, steps, state)));
    }
  }

  lemma TurnCounts(ctx: Ctx, state: State, steps: nat, node: string, log: Log)
    requires Balanced(Count(log), steps)
    ensures var f := TakeTurn(ctx, state, steps, node, log);
            var edge := ctx.graph.EdgeFrom(node);
            && Covered(Count(f.log))
            && (steps < ctx.graph.maxSteps ==> Bounded(ctx.graph.maxSteps, Count(log), Count(f.log)))
            && (f.Go? ==>
                  && Balanced(Count(f.log), f.value.steps)
                  && (steps < ctx.graph.maxSteps ==> f.value.steps <= ctx.graph.maxSteps)
                  && Count(f.log).starts == Count(log).starts + 1 + (if edge.FanOut? then |edge.branches| else 0)
                  && ((edge.FanOut? ==> Strict(edge) && |edge.branches| > 0) ==>
                        Count(f.log).errored == Count(log).errored))
  {
    hide Count, RunNode, RunRegion, Route, Strict;
    NodeCounts(ctx, state, steps, node, log);
    var ended := RunNode(ctx, state, steps, node, log);
    if ended.Go? {
      var edge := ctx.graph.EdgeFrom(node);
      if edge.FanOut? { RegionCounts(ctx, node, edge, ended.value, steps + 1, ended.log); }
      var committed := if edge.FanOut? then RunRegion(ctx, node, edge, ended.value, steps + 1, ended.log)
                       else Go(ended.log, Progress(ended.value, steps + 1));
      if committed.Go? {
        RouteCounts(ctx, node, if edge.FanOut? then Static(edge.next) else edge, committed.value.state,
                    committed.value.steps, committed.log);
      }
    }
  }

  /** No region of the graph tolerates a failed branch. */
  ghost predicate StrictGraph(graph: Graph) {
    forall source <- graph.edges :: graph.edges[source].FanOut? ==> Strict(graph.edges[source])
  }

  lemma {:induction false} LoopCounts(ctx: Ctx, state: State, steps: nat, node: string, last: string, log: Log)
    requires Balanced(Count(log), steps) && steps <= Budget(ctx.graph.maxSteps)
    ensures var after := Count(Loop(ctx, state, steps, node, last, log).log);
            && Closing(Loop(ctx, state, steps, node, last, log).log)
            && after.starts <= Budget(ctx.graph.maxSteps) + after.errored
            && (ctx.graph.Valid() && StrictGraph(ctx.graph) && Count(log).errored == 0 ==>
                  after.starts <= Budget(ctx.graph.maxSteps))
    decreases ctx.graph.maxSteps - steps
  {
    hide Count, TakeTurn, Strict, Ascending;
    if node == END {
      CountSnoc(log, Observed(Done(steps, Merge(state, map[STATUS := Str("done")]))));
    } else if steps < ctx.graph.maxSteps {
      TurnCounts(ctx, state, steps, node, log);
      var f := TakeTurn(ctx, state, steps, node, log);
      if f.Go? { LoopCounts(ctx, f.value.state, f.value.steps, f.value.target, node, f.log); }
    }
  }

  /** The books at the end of a run: covered, and balanced if it is done. */
  ghost predicate Closing(log: Log) {
    var t := Count(log);
    || Covered(t)
    || (log != [] && var last := log[|log| - 1];
        last.Observed? && last.obs.Done? && Balanced(t.(dones := 0), last.obs.steps))
  }

  lemma CoveredCloses(log: Log)
    requires Covered(Count(log))
    ensures Closing(log)
  {
  }

  lemma NothingBalances()
    ensures Balanced(NOTHING, 0) && Covered(NOTHING) && NOTHING.starts == NOTHING.errored == 0
  {
  }

  lemma RunCounts(ctx: Ctx, state: State)
    ensures var log := Run(ctx, state).log;
            && Closing(log)
            && Count(log).starts <= Budget(ctx.graph.maxSteps) + Count(log).errored
            && (ctx.graph.Valid() && StrictGraph(ctx.graph) ==> Count(log).starts <= Budget(ctx.graph.maxSteps))
  {
    hide Run, Loop, Route, Count, Closing, StrictGraph, Graph.Valid, Balanced, Covered, NOTHING;
    RunUnfolds(ctx, state);
    var edge := ctx.graph.EdgeFrom(START);
    CountNothing();
    NothingBalances();
    RouteCounts(ctx, START, edge, state, 0, []);
    var selected := Route(ctx, START, edge, state, 0, []);
    if selected.Go? {
      LoopCounts(ctx, state, 0, selected.value, START, selected.log);
    } else {
      CoveredCloses(Run(ctx, state).log);
    }
  }

  lemma ClosingCovers(log: Log)
    requires Closing(log)
    ensures Count(log).calls <= Count(log).starts
  {
  }

  /** Node callables are entered at most M times under a budget of M steps, and once more
      for each callable that failed; branch callables at most M * M / 4 times. */
  lemma CallsAreBounded(ctx: Ctx, state: State)
    requires ctx.graph.Valid()
    ensures var t := Count(Run(ctx, state).log);
            var m := Budget(ctx.graph.maxSteps);
            t.calls <= m + t.errored && t.branchCalls <= m * m / 4
  {
    hide Run, Count, Obs, Closing;
    RunCounts(ctx, state);
    ClosingCovers(Run(ctx, state).log);
    BranchesCovered(Run(ctx, state).log);
    CountsObservations(Run(ctx, state).log);
    WorkIsBounded(ctx, state);
  }

  lemma BranchesCovered(log: Log)
    requires Closing(log)
    ensures Count(log).branchCalls <= Count(log).fanned
  {
  }

  /** Where no join tolerates a failed branch the budget bounds the calls themselves, under
      every gate and interleaving, however the run ends. */
  lemma StrictJoinsKeepTheBudget(ctx: Ctx, state: State)
    requires ctx.graph.Valid() && StrictGraph(ctx.graph)
    ensures Count(Run(ctx, state).log).calls <= Budget(ctx.graph.maxSteps)
  {
    hide Run, Count, Closing, StrictGraph, Graph.Valid;
    RunCounts(ctx, state);
    ClosingCovers(Run(ctx, state).log);
  }

  /** In a finished run the step counter is the number of callables that delivered a
      delta: the nodes started less the callables that failed. */
  lemma StepsCountDeliveries(ctx: Ctx, state: State)
    requires ctx.graph.Valid()
    ensures var log := Run(ctx, state).log;
            var obs := Obs(log);
            obs != [] && obs[|obs| - 1].Done? ==>
              && obs[|obs| - 1].steps == Count(log).delivered
              && |Started(obs)| == Count(log).delivered + Count(log).errored
  {
    hide Run, Count, Obs;
    var log := Run(ctx, state).log;
    var obs := Obs(log);
    RunCounts(ctx, state);
    CountsObservations(log);
    if obs != [] && obs[|obs| - 1].Done? { DoneIsCounted(log); }
  }

  /** A log whose last observation is done has counted it, and shows it last if its last
      event is an observation. */
  lemma {:induction false} DoneIsCounted(log: Log)
    requires Obs(log) != [] && Obs(log)[|Obs(log)| - 1].Done?
    ensures Count(log).dones > 0
    ensures log[|log| - 1].Observed? ==> log[|log| - 1].obs == Obs(log)[|Obs(log)| - 1]
  {
    var front, last := log[..|log| - 1], log[|log| - 1];
    assert log == front + [last];
    ObsSnoc(front, last);
    CountSnoc(front, last);
    if !last.Observed? { DoneIsCounted(front); }
  }
}
