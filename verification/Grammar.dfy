/** The language of observation sequences: an automaton that knows nothing of gates,
    callables or tasks, and the proof that every run speaks it. */
module Grammar {
  import opened Values
  import opened Ordering
  import opened Protocol
  import opened Reducers
  import opened Topology
  import opened Engine

  /** Where a consumer is after the observations so far. `state` is always what was
      last observed as current. */
  datatype Phase =
    | Begin(state: State)
    | Heading(node: string, state: State, steps: nat)
    | Inside(node: string, state: State, steps: nat)
    | Rested(node: string, state: State, steps: nat, region: Option<string>)
    | Opening(source: string, target: string, base: State, snapshot: State, steps: nat, branches: seq<string>,
              started: nat)
    | Closing(source: string, target: string, snapshot: State, state: State, steps: nat, branches: seq<string>,
              ended: seq<Contribution>)
    | Over
    | Bad

  predicate Full(p: Phase) { p.Opening? && p.started == |p.branches| }

  /** The state a stop at `node` annotates, if the run may stop there now. */
  function StopBase(p: Phase, node: string, steps: nat): Option<State> {
    match p
    case Begin(s) => if node == START && steps == 0 then Some(s) else None
    case Inside(n, s, k) => if n == node && k == steps then Some(s) else None
    case Rested(n, s, k, _) => if n == node && k == steps then Some(s) else None
    case Opening(n, _, base, _, k, _, _) => if n == node && k == steps && Full(p) then Some(base) else None
    case _ => None
  }

  function InterruptBase(p: Phase, node: string, steps: nat, branches: seq<string>): Option<State> {
    match p
    case Inside(n, s, k) => if n == node && k == steps && branches == [] then Some(s) else None
    case Opening(_, _, _, snapshot, k, bs, _) =>
      if node in bs && k == steps && bs == branches && Full(p) then Some(snapshot) else None
    case _ => None
  }

  /** `after` is `before` with a new status and with nothing but `metadata` entries added. */
  predicate Annotated(before: State, after: State, status: string) {
    && before[METADATA].Dict? && after[METADATA].Dict?
    && after == before[STATUS := Str(status)][METADATA := after[METADATA]]
    && before[METADATA].entries.Keys <= after[METADATA].entries.Keys
  }

  /** Merged keys are exactly the keys written, each attributed to exactly its writers in order. */
  ghost predicate FoldShape(merged: Delta, provenance: map<string, seq<string>>, items: seq<Contribution>) {
    && merged.Keys == provenance.Keys == Keys(items)
    && forall k <- provenance :: provenance[k] == Branches(Writes(items, k))
  }

  ghost function Next(max: int, p: Phase, o: Observation): Phase {
    match o
    case EdgeSelected(node, target, steps, state) =>
      if p.Begin? && node == START && steps == 0 && state == p.state then Heading(target, state, 0)
      else if p.Rested? && node == p.node && steps == p.steps && state == p.state
              && (p.region.Some? ==> p.region.value == target) then Heading(target, state, steps)
      else Bad
    case NodeStart(node, steps, state) =>
      if p.Heading? && node == p.node && node != END && steps == p.steps && steps < max
         && Visit(p.state, [node]) == Some(state) then Inside(node, state, steps)
      else if p.Opening? && p.started < |p.branches| && node == p.branches[p.started] && steps == p.steps
              && state == p.snapshot then p.(started := p.started + 1)
      else Bad
    case NodeEnd(node, steps, state, delta) =>
      if p.Inside? && node == p.node && steps == p.steps + 1 && state == Merge(p.state, delta) then
        Rested(node, state, steps, None)
      else if Full(p) && node in p.branches && p.steps < steps <= p.steps + |p.branches| then
        Closing(p.source, p.target, p.snapshot, state, steps, p.branches, [Contribution(node, delta)])
      else if p.Closing? && node in p.branches && steps == p.steps && state == p.state && p.ended != []
              && StrLt(p.ended[|p.ended| - 1].branch, node) then
        p.(ended := p.ended + [Contribution(node, delta)])
      else Bad
    case SuperstepStart(node, target, steps, branches, state) =>
      if p.Rested? && p.region.None? && node == p.node && steps == p.steps && steps + |branches| <= max
         && |branches| >= 2 && Ascending(branches) && Visit(p.state, branches) == Some(state) then
        Opening(node, target, p.state, state, steps, branches, 0)
      else Bad
    case SuperstepCommit(node, target, steps, branches, state, merged, provenance) =>
      if p.Closing? && node == p.source && target == p.target && steps == p.steps && branches == Names(p.ended)
         && state == p.state == Merge(p.snapshot, merged) && FoldShape(merged, provenance, p.ended) then
        Rested(node, state, steps, Some(target))
      else Bad
    case Interrupted(node, steps, branches, state) =>
      var base := InterruptBase(p, node, steps, branches);
      if base.Some? && Annotated(base.value, state, "interrupted") then Over else Bad
    case Stopped(node, steps, state) =>
      var base := StopBase(p, node, steps);
      if base.Some? && Annotated(base.value, state, "stopped") then Over else Bad
    case Done(steps, state) =>
      if p.Heading? && p.node == END && steps == p.steps && state == Merge(p.state, map[STATUS := Str("done")])
      then Over
      else Bad
  }

  ghost function Scan(max: int, p: Phase, obs: seq<Observation>): Phase {
    if obs == [] then p else Next(max, Scan(max, p, obs[..|obs| - 1]), obs[|obs| - 1])
  }

  /** The automaton run over a whole log, which it reads only the observations of. */
  ghost function Track(max: int, p: Phase, log: Log): Phase {
    if log == [] then p else
    var before := Track(max, p, log[..|log| - 1]);
    var last := log[|log| - 1];
    if last.Observed? then Next(max, before, last.obs) else before
  }

  lemma Snoc(max: int, p: Phase, log: Log, e: Event)
    ensures Track(max, p, log + [e]) == if e.Observed? then Next(max, Track(max, p, log), e.obs) else Track(max, p, log)
  {
    assert (log + [e])[..|log|] == log;
  }

  lemma TrackNothing(max: int, p: Phase)
    ensures Track(max, p, []) == p
  {
  }

  lemma {:induction false} TrackIsScan(max: int, p: Phase, log: Log)
    ensures Track(max, p, log) == Scan(max, p, Obs(log))
  {
    if log != [] {
      var before := log[..|log| - 1];
      TrackIsScan(max, p, before);
      var last := log[|log| - 1];
      if last.Observed? {
        assert Obs(log) == Obs(before) + [last.obs];
        assert Obs(log)[..|Obs(log)| - 1] == Obs(before);
      } else {
        assert Obs(log) == Obs(before);
      }
    }
  }

  lemma NextStopped(max: int, q: Phase, node: string, steps: nat, state: State, stopped: State)
    requires StopBase(q, node, steps) == Some(state) && Annotated(state, stopped, "stopped")
    ensures Next(max, q, Stopped(node, steps, stopped)) == Over
  {
  }

  lemma NextInterrupted(max: int, q: Phase, node: string, steps: nat, branches: seq<string>, state: State,
                        paused: State)
    requires InterruptBase(q, node, steps, branches) == Some(state) && Annotated(state, paused, "interrupted")
    ensures Next(max, q, Interrupted(node, steps, branches, paused)) == Over
  {
  }

  lemma AnnotateAnnotates(state: State, status: string, extra: map<string, Value>)
    ensures var r := Annotate(state, status, extra); r.Some? ==> Annotated(state, r.value, status)
  {
  }

  // ----- the boundaries observe nothing but a stop -----

  lemma AskTracks(max: int, p: Phase, gate: Gate, log: Log, request: DispatchRequest)
    ensures Track(max, p, Ask(gate, log, request).log) == Track(max, p, log)
    ensures !Ask(gate, log, request).Ended?
  {
    hide Next, Track;
    if gate.Gate? { Snoc(max, p, log, Decided(request, gate.dispatch(log, request))); }
  }

  lemma MarkTracks(max: int, p: Phase, gate: Gate, log: Log, request: DispatchRequest)
    ensures Track(max, p, Mark(gate, log, request).log) == Track(max, p, log)
    ensures !Mark(gate, log, request).Ended?
  {
    hide Next, Track;
    if gate.Durable() { Snoc(max, p, log, Marked(request, gate.start.value(log, request))); }
  }

  /** A flow that added no observation, or ended the run by a stop. */
  ghost predicate Silent<T>(max: int, p: Phase, log: Log, f: Flow<T>) {
    Track(max, p, f.log) == if f.Ended? then Over else Track(max, p, log)
  }

  lemma HaltTracks<T>(max: int, p: Phase, log: Log, state: State, node: string, steps: nat, reason: string)
    requires StopBase(Track(max, p, log), node, steps) == Some(state)
    ensures Silent(max, p, log, Halt<T>(log, state, node, steps, reason))
  {
    hide Next, Track;
    var extra := map["stop_node" := Str(node), "stop_reason" := Str(reason)];
    AnnotateAnnotates(state, "stopped", extra);
    var stopped := Annotate(state, "stopped", extra);
    if stopped.Some? {
      NextStopped(max, Track(max, p, log), node, steps, state, stopped.value);
      Snoc(max, p, log, Observed(Stopped(node, steps, stopped.value)));
    }
  }

  lemma PermitTracks(max: int, p: Phase, gate: Gate, log: Log, request: DispatchRequest, state: State, node: string,
                     steps: nat)
    requires StopBase(Track(max, p, log), node, steps) == Some(state)
    ensures Silent(max, p, log, Permit(gate, log, request, state, node, steps))
  {
    hide Next, Track;
    AskTracks(max, p, gate, log, request);
    var asked := Ask(gate, log, request);
    if asked.Go? && asked.value.Some? {
      HaltTracks<()>(max, p, asked.log, state, node, steps, asked.value.value);
    }
  }

  lemma GuardTracks(max: int, p: Phase, gate: Gate, log: Log, request: DispatchRequest, state: State, node: string,
                    steps: nat)
    requires StopBase(Track(max, p, log), node, steps) == Some(state)
    ensures Silent(max, p, log, Guard(gate, log, request, state, node, steps))
  {
    hide Next, Track, Permit;
    PermitTracks(max, p, gate, log, request, state, node, steps);
    var allowed := Permit(gate, log, request, state, node, steps);
    if allowed.Go? {
      MarkTracks(max, p, gate, allowed.log, request);
      Snoc(max, p, Mark(gate, allowed.log, request).log, Entered(request));
    }
  }

  lemma CommitTracks(max: int, p: Phase, gate: Gate, log: Log, request: CommitRequest, state: State, node: string,
                     steps: nat)
    requires StopBase(Track(max, p, log), node, steps) == Some(state)
    ensures Silent(max, p, log, Commit(gate, log, request, state, node, steps))
  {
    hide Next, Track;
    if gate.Gate? {
      var answer := gate.commit(log, request);
      Snoc(max, p, log, CommitDecided(request, answer));
      if answer.Says? && answer.decision.Stop? {
        HaltTracks<()>(max, p, log + [CommitDecided(request, answer)], state, node, steps, answer.decision.reason);
      }
    }
  }

  lemma AfterCommitTracks(max: int, p: Phase, gate: Gate, log: Log, request: CommitRequest)
    ensures Track(max, p, AfterCommit(gate, log, request).0) == Track(max, p, log)
  {
    hide Next, Track;
    if gate.Gate? && gate.settle.Some? { Snoc(max, p, log, Settled(request, gate.settle.value(log, request))); }
  }

  lemma InterruptTracks<T>(max: int, p: Phase, log: Log, state: State, node: string, steps: nat, branches: seq<string>,
                           fault: Fault)
    requires fault.Interrupt?
    requires InterruptBase(Track(max, p, log), node, steps, branches) == Some(state)
    ensures Silent(max, p, log, InterruptRun<T>(log, state, node, steps, branches, fault))
  {
    hide Next, Track;
    var extra := map["interrupt_node" := Str(node), "interrupt_prompt" := fault.prompt,
                     "interrupt_payload" := fault.payload];
    AnnotateAnnotates(state, "interrupted", extra);
    var paused := Annotate(state, "interrupted", extra);
    if paused.Some? {
      NextInterrupted(max, Track(max, p, log), node, steps, branches, state, paused.value);
      Snoc(max, p, log, Observed(Interrupted(node, steps, branches, paused.value)));
    }
  }

  // ----- a node -----

  /** A flow either silently left the run where it was, or reached `there`. */
  ghost predicate Reaches<T>(max: int, p: Phase, f: Flow<T>) {
    var q := Track(max, p, f.log);
    && q != Bad && !q.Closing?
    && (f.Ended? <==> q.Over?)
  }

  lemma NodeTracks(max: int, p: Phase, ctx: Ctx, state: State, steps: nat, node: string, log: Log)
    requires Track(max, p, log) == Heading(node, state, steps) && node != END && steps < max
    ensures var f := RunNode(ctx, state, steps, node, log);
            && Reaches(max, p, f)
            && (f.Go? ==> Track(max, p, f.log) == Rested(node, f.value, steps + 1, None))
  {
    hide Track, Guard, PublishNode, InterruptRun;
    var visited := Visit(state, [node]);
    if node in ctx.graph.nodes && visited.Some? {
      var running := visited.value;
      var started := log + [Observed(NodeStart(node, steps, running))];
      Snoc(max, p, log, Observed(NodeStart(node, steps, running)));
      GuardTracks(max, p, ctx.gate, started, NodeSite(node, steps), running, node, steps);
      var entered := Guard(ctx.gate, started, NodeSite(node, steps), running, node, steps);
      if entered.Go? {
        var answer := ctx.graph.nodes[node].call(running);
        var left := entered.log + [Left(NodeSite(node, steps), answer.Delivers?)];
        Snoc(max, p, entered.log, Left(NodeSite(node, steps), answer.Delivers?));
        match answer
        case NodeThrows(fault) =>
          if fault.Interrupt? { InterruptTracks<State>(max, p, left, running, node, steps, [], fault); }
        case DeliversOther =>
        case Delivers(delta) => PublishTracks(max, p, ctx.gate, running, steps, node, delta, left);
      }
    }
  }

  lemma PublishTracks(max: int, p: Phase, gate: Gate, running: State, steps: nat, node: string, delta: Delta, log: Log)
    requires Track(max, p, log) == Inside(node, running, steps)
    ensures var f := PublishNode(gate, running, steps, node, delta, log);
            && Reaches(max, p, f)
            && (f.Go? ==> Track(max, p, f.log) == Rested(node, f.value, steps + 1, None))
  {
    hide Track, Commit, AfterCommit;
    var request := CommitRequest(NodeCommit, [node], steps, None, Sha256(delta), None);
    CommitTracks(max, p, gate, log, request, running, node, steps);
    var allowed := Commit(gate, log, request, running, node, steps);
    if allowed.Go? {
      AfterCommitTracks(max, p, gate, allowed.log, request);
      Snoc(max, p, AfterCommit(gate, allowed.log, request).0,
           Observed(NodeEnd(node, steps + 1, Merge(running, delta), delta)));
    }
  }

  // ----- a region -----

  lemma {:induction false} StartsTrack(max: int, p: Phase, log: Log, region: Region, n: nat, open: Phase)
    requires n <= |region.branches|
    requires open.Opening? && open.started == 0 && open.branches == region.branches && open.steps == region.steps
    requires open.snapshot == region.snapshot
    requires Track(max, p, log) == open
    ensures Track(max, p, log + StartEvents(region, n)) == open.(started := n)
  {
    hide Track;
    if n == 0 {
      assert log + StartEvents(region, 0) == log;
    } else {
      StartsTrack(max, p, log, region, n - 1, open);
      var e := Observed(NodeStart(region.branches[n - 1], region.steps, region.snapshot));
      assert log + StartEvents(region, n) == (log + StartEvents(region, n - 1)) + [e];
      Snoc(max, p, log + StartEvents(region, n - 1), e);
    }
  }

  lemma StepTracks(max: int, p: Phase, ctx: Ctx, region: Region, i: nat, task: Task, log: Log)
    requires i < |region.branches| && region.In(ctx.graph) && !task.Finished?
    ensures Track(max, p, StepTask(ctx, region, i, task, log).1) == Track(max, p, log)
  {
    hide Next, Track;
    AskTracks(max, p, ctx.gate, log, region.Site(i));
    MarkTracks(max, p, ctx.gate, log, region.Site(i));
    Snoc(max, p, log, Entered(region.Site(i)));
    Snoc(max, p, Mark(ctx.gate, log, region.Site(i)).log, Entered(region.Site(i)));
    Snoc(max, p, log, Left(region.Site(i), Call(ctx.graph, region, i).Ok?));
  }

  lemma {:induction false} SettleTracks(max: int, p: Phase, ctx: Ctx, region: Region, tasks: seq<Task>, log: Log)
    requires |tasks| == |region.branches| && region.In(ctx.graph)
    ensures Track(max, p, SettleAll(ctx, region, tasks, log).1) == Track(max, p, log)
    decreases Work(tasks)
  {
    hide Next, Track;
    if !AllFinished(tasks) {
      var i := Choose(tasks, ctx.pick(log));
      var (task, stepped) := StepTask(ctx, region, i, tasks[i], log);
      WorkUpdate(tasks, i, task);
      StepTracks(max, p, ctx, region, i, tasks[i], log);
      SettleTracks(max, p, ctx, region, tasks[i := task], stepped);
    }
  }

  /** Admitted branches: some of the region's, in ascending order. */
  ghost predicate Selected(items: seq<Contribution>, branches: seq<string>) {
    && Ascending(Names(items))
    && forall item <- items :: item.branch in branches
  }

  lemma {:induction false} SuccessesSelected(branches: seq<string>, settled: seq<Settlement>)
    requires |branches| == |settled| && Ascending(branches)
    ensures Selected(Successes(branches, settled), branches)
  {
    if settled != [] {
      assert Ascending(branches[1..]);
      SuccessesSelected(branches[1..], settled[1..]);
      PrependSelected(branches, if settled[0].Ok? then Some(settled[0].delta) else None,
                      Successes(branches[1..], settled[1..]));
    }
  }

  lemma PrependSelected(branches: seq<string>, head: Option<Delta>, rest: seq<Contribution>)
    requires branches != [] && Ascending(branches) && Selected(rest, branches[1..])
    ensures Selected((if head.Some? then [Contribution(branches[0], head.value)] else []) + rest, branches)
  {
    if head.Some? {
      var items := [Contribution(branches[0], head.value)] + rest;
      forall i, j | 0 <= i < j < |items| ensures StrLt(Names(items)[i], Names(items)[j]) {
        if i == 0 {
          assert items[j] == rest[j - 1] && rest[j - 1] in rest;
        } else {
          assert StrLt(Names(rest)[i - 1], Names(rest)[j - 1]);
        }
      }
    }
  }

  lemma {:induction false} ChosenSelected(ok: seq<Contribution>, names: seq<string>, branches: seq<string>)
    requires Selected(ok, branches)
    ensures Selected(Chosen(ok, names), branches)
    ensures forall c <- Chosen(ok, names) :: c in ok
  {
    if ok != [] {
      var rest := ok[1..];
      assert Selected(rest, branches) by {
        forall i, j | 0 <= i < j < |rest| ensures StrLt(Names(rest)[i], Names(rest)[j]) {
          assert StrLt(Names(ok)[i + 1], Names(ok)[j + 1]);
        }
      }
      ChosenSelected(rest, names, branches);
      var tail := Chosen(rest, names);
      var items := Chosen(ok, names);
      forall i, j | 0 <= i < j < |items| ensures StrLt(Names(items)[i], Names(items)[j]) {
        if |items| > |tail| && i == 0 {
          assert items[j] == tail[j - 1] && tail[j - 1] in rest;
          var k :| 0 <= k < |rest| && rest[k] == tail[j - 1];
          assert StrLt(Names(ok)[0], Names(ok)[k + 1]);
        } else if |items| > |tail| {
          assert StrLt(Names(tail)[i - 1], Names(tail)[j - 1]);
        } else {
          assert StrLt(Names(tail)[i], Names(tail)[j]);
        }
      }
    }
  }

  lemma AdmitSelected(source: string, join: Join, branches: seq<string>, settled: seq<Settlement>)
    requires |branches| == |settled| && Ascending(branches)
    ensures var r := Admit(source, join, branches, settled);
            r.Success? ==> Selected(r.value, branches) && 1 <= |Successes(branches, settled)|
  {
    SuccessesSelected(branches, settled);
    var ok := Successes(branches, settled);
    if join.FirstSuccess? && ok != [] { assert ok[..1] == [ok[0]]; }
    if join.CustomJoin? {
      var answer := join.admit(JoinView(branches, settled));
      if answer.Admits? { ChosenSelected(ok, answer.names, branches); }
    }
  }

  lemma EnterReducerTracks(max: int, p: Phase, ctx: Ctx, region: Region, state: State, completed: nat,
                           items: seq<Contribution>, key: string, log: Log)
    requires StopBase(Track(max, p, log), region.source, region.steps) == Some(state)
    ensures Silent(max, p, log, EnterReducer(ctx, region, state, completed, items, key, log))
  {
    hide Next, Track;
    var site := region.Request(AtReducer, Names(items) + [key], completed);
    Snoc(max, p, log, Entered(site));
    GuardTracks(max, p, ctx.gate, log, site, state, region.source, region.steps);
  }

  lemma FoldKeyTracks(max: int, p: Phase, ctx: Ctx, region: Region, state: State, completed: nat,
                      items: seq<Contribution>, key: string, acc: Fold, log: Log)
    requires key in Keys(items)
    requires StopBase(Track(max, p, log), region.source, region.steps) == Some(state)
    ensures Silent(max, p, log, FoldKey(ctx, region, state, completed, items, key, acc, log))
  {
    hide Next, Track, EnterReducer, ReduceField;
    EnterReducerTracks(max, p, ctx, region, state, completed, items, key, log);
  }

  /** The fold observes nothing, unless a reducer boundary stops the run. */
  lemma {:induction false} FoldTracks(max: int, p: Phase, ctx: Ctx, region: Region, state: State, completed: nat,
                                      items: seq<Contribution>, keys: seq<string>, acc: Fold, log: Log)
    requires forall k <- keys :: k in Keys(items)
    requires StopBase(Track(max, p, log), region.source, region.steps) == Some(state)
    ensures Silent(max, p, log, FoldKeys(ctx, region, state, completed, items, keys, acc, log))
    decreases |keys|
  {
    hide Next, Track, FoldKey;
    if keys != [] {
      FoldKeyTracks(max, p, ctx, region, state, completed, items, keys[0], acc, log);
      var one := FoldKey(ctx, region, state, completed, items, keys[0], acc, log);
      if one.Go? {
        FoldTracks(max, p, ctx, region, state, completed, items, keys[1..], one.value, one.log);
      }
    }
  }

  /** The fold merges exactly the keys it was given and attributes each to its writers. */
  ghost predicate Attributes(fold: Fold, acc: Fold, keys: seq<string>, items: seq<Contribution>) {
    && (forall k :: k in fold.merged <==> k in acc.merged || k in keys)
    && (forall k :: k in fold.provenance <==> k in acc.provenance || k in keys)
    && forall k <- fold.provenance :: fold.provenance[k] ==
         if k in keys then Branches(Writes(items, k)) else acc.provenance[k]
  }

  lemma FoldKeyAttributes(ctx: Ctx, region: Region, state: State, completed: nat, items: seq<Contribution>, key: string,
                          acc: Fold, log: Log)
    requires key in Keys(items)
    ensures var f := FoldKey(ctx, region, state, completed, items, key, acc, log);
            f.Go? ==> Attributes(f.value, acc, [key], items)
  {
    hide EnterReducer, ReduceField;
  }

  lemma AttributesTransitive(fold: Fold, mid: Fold, acc: Fold, key: string, keys: seq<string>, items: seq<Contribution>)
    requires Attributes(mid, acc, [key], items) && Attributes(fold, mid, keys, items)
    ensures Attributes(fold, acc, [key] + keys, items)
  {
  }

  lemma {:induction false} FoldAttributes(ctx: Ctx, region: Region, state: State, completed: nat,
                                          items: seq<Contribution>, keys: seq<string>, acc: Fold, log: Log)
    requires forall k <- keys :: k in Keys(items)
    ensures var f := FoldKeys(ctx, region, state, completed, items, keys, acc, log);
            f.Go? ==> Attributes(f.value, acc, keys, items)
    decreases |keys|
  {
    hide FoldKey;
    if keys != [] {
      FoldKeyAttributes(ctx, region, state, completed, items, keys[0], acc, log);
      var one := FoldKey(ctx, region, state, completed, items, keys[0], acc, log);
      if one.Go? {
        FoldAttributes(ctx, region, state, completed, items, keys[1..], one.value, one.log);
        var f := FoldKeys(ctx, region, state, completed, items, keys[1..], one.value, one.log);
        assert keys == [keys[0]] + keys[1..];
        if f.Go? { AttributesTransitive(f.value, one.value, acc, keys[0], keys[1..], items); }
      }
    }
  }

  lemma {:induction false} EndsTrack(max: int, p: Phase, log: Log, items: seq<Contribution>, completed: nat,
                                     committed: State, n: nat, q: Phase)
    requires 1 <= n <= |items|
    requires Full(q) && Selected(items, q.branches) && q.steps < completed <= q.steps + |q.branches|
    requires Track(max, p, log) == q
    ensures Track(max, p, log + EndEvents(items, completed, committed)[..n])
         == Closing(q.source, q.target, q.snapshot, committed, completed, q.branches, items[..n])
  {
    hide Track;
    var events := EndEvents(items, completed, committed);
    assert log + events[..n] == (log + events[..n - 1]) + [events[n - 1]];
    Snoc(max, p, log + events[..n - 1], events[n - 1]);
    assert items[n - 1] in items;
    assert items[..n] == items[..n - 1] + [items[n - 1]];
    if n == 1 {
      assert log + events[..0] == log;
    } else {
      EndsTrack(max, p, log, items, completed, committed, n - 1, q);
      assert StrLt(Names(items)[n - 2], Names(items)[n - 1]);
    }
  }

  /** Standing inside a region whose branches have all been announced. */
  ghost predicate Standing(max: int, p: Phase, log: Log, region: Region, edge: Edge, state: State)
    requires edge.FanOut?
  {
    && Track(max, p, log)
         == Opening(region.source, edge.next, state, region.snapshot, region.steps, region.branches, |region.branches|)
    && Ascending(region.branches)
  }

  /** The region committed and its source may route to `next`, or the run is over. */
  ghost predicate Closed(max: int, p: Phase, f: Flow<Progress>, source: string, next: string) {
    && Reaches(max, p, f)
    && (f.Go? ==> Track(max, p, f.log) == Rested(source, f.value.state, f.value.steps, Some(next)))
  }

  lemma EndsThenCommitTracks(max: int, p: Phase, log: Log, items: seq<Contribution>, completed: nat, committed: State,
                             q: Phase, fold: Fold)
    requires Track(max, p, log) == q && Full(q) && q.steps < completed <= q.steps + |q.branches|
    requires items != [] && Selected(items, q.branches) && FoldShape(fold.merged, fold.provenance, items)
    requires committed == Merge(q.snapshot, fold.merged)
    ensures Track(max, p, log + EndEvents(items, completed, committed)
                          + [Observed(SuperstepCommit(q.source, q.target, completed, Names(items), committed,
                                                      fold.merged, fold.provenance))])
         == Rested(q.source, committed, completed, Some(q.target))
  {
    hide Track;
    var events := EndEvents(items, completed, committed);
    EndsTrack(max, p, log, items, completed, committed, |items|, q);
    assert events[..|items|] == events && items[..|items|] == items;
    Snoc(max, p, log + events,
         Observed(SuperstepCommit(q.source, q.target, completed, Names(items), committed, fold.merged,
                                  fold.provenance)));
  }

  lemma CommitRegionTracks(max: int, p: Phase, ctx: Ctx, region: Region, edge: Edge, state: State, completed: nat,
                           items: seq<Contribution>, fold: Fold, log: Log)
    requires edge.FanOut? && Standing(max, p, log, region, edge, state)
    requires items != [] && Selected(items, region.branches) && FoldShape(fold.merged, fold.provenance, items)
    requires region.steps < completed <= region.steps + |region.branches|
    ensures Closed(max, p, CommitRegion(ctx, region, edge, state, completed, items, fold, log),
                   region.source, edge.next)
  {
    hide Next, Track, Commit, AfterCommit;
    var request := CommitRequest(RegionCommit, Names(items), completed, Some(region.source), Sha256(fold.merged),
                                 Some(region.batch));
    CommitTracks(max, p, ctx.gate, log, request, state, region.source, region.steps);
    var allowed := Commit(ctx.gate, log, request, state, region.source, region.steps);
    if allowed.Go? {
      AfterCommitTracks(max, p, ctx.gate, allowed.log, request);
      EndsThenCommitTracks(max, p, AfterCommit(ctx.gate, allowed.log, request).0, items, completed,
                           Merge(region.snapshot, fold.merged), Track(max, p, log), fold);
    }
  }

  lemma FoldRegionTracks(max: int, p: Phase, ctx: Ctx, region: Region, edge: Edge, state: State, completed: nat,
                         items: seq<Contribution>, log: Log)
    requires edge.FanOut? && Standing(max, p, log, region, edge, state)
    requires items != [] && Selected(items, region.branches)
    requires region.steps < completed <= region.steps + |region.branches|
    ensures Closed(max, p, FoldRegion(ctx, region, edge, state, completed, items, log), region.source, edge.next)
  {
    hide Next, Track, FoldKeys, CommitRegion, Permit;
    var request := region.Request(AtReducer, Names(items), completed);
    PermitTracks(max, p, ctx.gate, log, request, state, region.source, region.steps);
    var allowed := Permit(ctx.gate, log, request, state, region.source, region.steps);
    if allowed.Go? {
      var keys := SortedKeys(Keys(items));
      FoldTracks(max, p, ctx, region, state, completed, items, keys, Fold(map[], map[]), allowed.log);
      var folded := FoldKeys(ctx, region, state, completed, items, keys, Fold(map[], map[]), allowed.log);
      if folded.Go? {
        FoldHasShape(ctx, region, state, completed, items, allowed.log);
        CommitRegionTracks(max, p, ctx, region, edge, state, completed, items, folded.value, folded.log);
      } else {
        SilentPropagates<Fold, Progress>(max, p, allowed.log, folded, folded.PropagateFailure<Progress>());
      }
    } else {
      SilentPropagates<(), Progress>(max, p, log, allowed, allowed.PropagateFailure<Progress>());
    }
  }

  lemma FoldHasShape(ctx: Ctx, region: Region, state: State, completed: nat, items: seq<Contribution>, log: Log)
    ensures var f := FoldKeys(ctx, region, state, completed, items, SortedKeys(Keys(items)), Fold(map[], map[]), log);
            f.Go? ==> FoldShape(f.value.merged, f.value.provenance, items)
  {
    hide FoldKeys;
    var keys := SortedKeys(Keys(items));
    FoldAttributes(ctx, region, state, completed, items, keys, Fold(map[], map[]), log);
    var f := FoldKeys(ctx, region, state, completed, items, keys, Fold(map[], map[]), log);
    if f.Go? {
      assert f.value.merged.Keys == Keys(items);
      assert f.value.provenance.Keys == Keys(items);
    }
  }

  lemma GuardJoinTracks(max: int, p: Phase, ctx: Ctx, region: Region, edge: Edge, state: State, completed: nat,
                        log: Log)
    requires edge.FanOut? && Standing(max, p, log, region, edge, state)
    ensures Silent(max, p, log, GuardJoin(ctx, region, edge.join, state, completed, log))
  {
    hide Next, Track;
    GuardTracks(max, p, ctx.gate, log, region.Request(AtJoin, region.branches, completed), state, region.source,
                region.steps);
  }

  lemma AdmitTracks(max: int, p: Phase, ctx: Ctx, region: Region, edge: Edge, state: State, completed: nat,
                    settled: seq<Settlement>, log: Log)
    requires edge.FanOut? && Standing(max, p, log, region, edge, state) && |settled| == |region.branches|
    requires completed == region.steps + |Successes(region.branches, settled)|
    ensures Closed(max, p, AdmitRegion(ctx, region, edge, state, completed, settled, log), region.source, edge.next)
  {
    hide Next, Track;
    AdmitSelected(region.source, edge.join, region.branches, settled);
    var r := Admit(region.source, edge.join, region.branches, settled);
    if r.Success? {
      FoldRegionTracks(max, p, ctx, region, edge, state, completed, r.value, log);
    }
  }

  lemma SilentPropagates<T, U>(max: int, p: Phase, log: Log, f: Flow<T>, g: Flow<U>)
    requires Silent(max, p, log, f) && !f.Go? && g == f.PropagateFailure<U>()
    requires var q := Track(max, p, log); q != Bad && !q.Closing? && !q.Over?
    ensures Reaches(max, p, g)
  {
  }

  lemma JoinTracks(max: int, p: Phase, ctx: Ctx, region: Region, edge: Edge, state: State, settled: seq<Settlement>,
                   log: Log)
    requires edge.FanOut? && Standing(max, p, log, region, edge, state) && |settled| == |region.branches|
    ensures Closed(max, p, JoinRegion(ctx, region, edge, state, settled, log), region.source, edge.next)
  {
    hide Next, Track, AdmitRegion;
    var completed := region.steps + |Successes(region.branches, settled)|;
    GuardJoinTracks(max, p, ctx, region, edge, state, completed, log);
    var joined := GuardJoin(ctx, region, edge.join, state, completed, log);
    var f := JoinRegion(ctx, region, edge, state, settled, log);
    if joined.Go? {
      AdmitTracks(max, p, ctx, region, edge, state, completed, settled, joined.log);
    } else {
      SilentPropagates<(), Progress>(max, p, log, joined, f);
    }
  }

  lemma CloseTracks(max: int, p: Phase, ctx: Ctx, region: Region, edge: Edge, state: State, settled: seq<Settlement>,
                    log: Log)
    requires edge.FanOut? && Standing(max, p, log, region, edge, state) && |settled| == |region.branches|
    ensures Closed(max, p, CloseRegion(ctx, region, edge, state, settled, log), region.source, edge.next)
  {
    hide Next, Track, JoinRegion, Halt, InterruptRun;
    var stops, paused := StopReasons(settled), FirstInterrupt(settled);
    if AdmissionErrors(settled) != [] || StartErrors(settled) != [] {
    } else if stops != [] {
      HaltTracks<Progress>(max, p, log, state, region.source, region.steps, stops[0]);
    } else if paused < |settled| {
      InterruptTracks<Progress>(max, p, log, region.snapshot, region.branches[paused], region.steps, region.branches,
                                settled[paused].error.fault);
    } else {
      JoinTracks(max, p, ctx, region, edge, state, settled, log);
    }
  }

  lemma OpenTracks(max: int, p: Phase, ctx: Ctx, source: string, edge: Edge, state: State, steps: nat, log: Log)
    requires ctx.graph.maxSteps == max && edge.FanOut? && ValidFanOut(edge)
    requires Track(max, p, log) == Rested(source, state, steps, None)
    ensures var f := OpenRegion(ctx, source, edge, state, steps, log);
            && !f.Ended?
            && (f.Raise? ==> f.log == log)
            && (f.Go? ==> f.value.source == source && Standing(max, p, f.log, f.value, edge, state))
  {
    hide Track;
    var f := OpenRegion(ctx, source, edge, state, steps, log);
    if f.Go? {
      var region := f.value;
      var e := Observed(SuperstepStart(source, edge.next, steps, region.branches, region.snapshot));
      Snoc(max, p, log, e);
      StartsTrack(max, p, log + [e], region, |region.branches|, Track(max, p, log + [e]));
    }
  }

  lemma RegionTracks(max: int, p: Phase, ctx: Ctx, source: string, edge: Edge, state: State, steps: nat, log: Log)
    requires ctx.graph.maxSteps == max && edge.FanOut? && ValidFanOut(edge)
    requires Track(max, p, log) == Rested(source, state, steps, None)
    ensures Closed(max, p, RunRegion(ctx, source, edge, state, steps, log), source, edge.next)
  {
    hide Next, Track, OpenRegion, SettleAll, CloseRegion, Permit;
    OpenTracks(max, p, ctx, source, edge, state, steps, log);
    var begun := OpenRegion(ctx, source, edge, state, steps, log);
    if begun.Go? {
      var region := begun.value;
      var request := region.Request(AtFanOut, region.branches, steps);
      PermitTracks(max, p, ctx.gate, begun.log, request, state, source, steps);
      var allowed := Permit(ctx.gate, begun.log, request, state, source, steps);
      if allowed.Go? {
        var tasks := FreshTasks(|region.branches|);
        SettleTracks(max, p, ctx, region, tasks, allowed.log);
        var (done, settled) := SettleAll(ctx, region, tasks, allowed.log);
        CloseTracks(max, p, ctx, region, edge, state, Outcomes(done), settled);
      } else {
        SilentPropagates<(), Progress>(max, p, begun.log, allowed, allowed.PropagateFailure<Progress>());
      }
    }
  }

  // ----- the run -----

  lemma StaticResolves(graph: Graph, edge: Edge, state: State)
    ensures edge.Static? && Resolve(graph, edge, state).Success? ==> Resolve(graph, edge, state).value == edge.target
  {
  }

  lemma RouteTracks(max: int, p: Phase, ctx: Ctx, source: string, edge: Edge, state: State, steps: nat, log: Log)
    requires var q := Track(max, p, log);
             || (q == Begin(state) && source == START && steps == 0)
             || (q.Rested? && q.node == source && q.state == state && q.steps == steps
                 && (q.region.Some? ==> edge == Static(q.region.value)))
    ensures var f := Route(ctx, source, edge, state, steps, log);
            && Reaches(max, p, f)
            && (f.Go? ==> Track(max, p, f.log) == Heading(f.value, state, steps))
  {
    hide Track, Guard, Resolve;
    var site := RouterSite(source, steps);
    if edge.Conditional? { GuardTracks(max, p, ctx.gate, log, site, state, source, steps); }
    var entered := if edge.Conditional? then Guard(ctx.gate, log, site, state, source, steps) else Go(log, ());
    var r := Resolve(ctx.graph, edge, state);
    StaticResolves(ctx.graph, edge, state);
    if entered.Go? && r.Success? {
      Snoc(max, p, entered.log, Observed(EdgeSelected(source, r.value, steps, state)));
    } else if !entered.Go? {
      SilentPropagates<(), string>(max, p, log, entered, entered.PropagateFailure<string>());
    }
  }

  lemma TurnTracks(max: int, p: Phase, ctx: Ctx, state: State, steps: nat, node: string, log: Log)
    requires ctx.graph.maxSteps == max && ctx.graph.Valid()
    requires Track(max, p, log) == Heading(node, state, steps) && node != END && steps < max
    ensures var f := TakeTurn(ctx, state, steps, node, log);
            && Reaches(max, p, f)
            && (f.Go? ==> Track(max, p, f.log) == Heading(f.value.target, f.value.state, f.value.steps))
  {
    hide Next, Track, RunNode, RunRegion, Route;
    NodeTracks(max, p, ctx, state, steps, node, log);
    var ended := RunNode(ctx, state, steps, node, log);
    if ended.Go? {
      var edge := ctx.graph.EdgeFrom(node);
      if edge.FanOut? {
        RegionTracks(max, p, ctx, node, edge, ended.value, steps + 1, ended.log);
        var committed := RunRegion(ctx, node, edge, ended.value, steps + 1, ended.log);
        if committed.Go? {
          RouteTracks(max, p, ctx, node, Static(edge.next), committed.value.state, committed.value.steps,
                      committed.log);
        }
      } else {
        RouteTracks(max, p, ctx, node, edge, ended.value, steps + 1, ended.log);
      }
    }
  }

  lemma {:induction false} LoopTracks(max: int, p: Phase, ctx: Ctx, state: State, steps: nat, node: string,
                                      last: string, log: Log)
    requires ctx.graph.maxSteps == max && ctx.graph.Valid()
    requires Track(max, p, log) == Heading(node, state, steps)
    ensures Reaches(max, p, Loop(ctx, state, steps, node, last, log))
    decreases max - steps
  {
    hide Track, TakeTurn;
    if node == END {
      Snoc(max, p, log, Observed(Done(steps, Merge(state, map[STATUS := Str("done")]))));
    } else if steps < max {
      TurnTracks(max, p, ctx, state, steps, node, log);
      var f := TakeTurn(ctx, state, steps, node, log);
      if f.Go? {
        LoopTracks(max, p, ctx, f.value.state, f.value.steps, f.value.target, node, f.log);
      }
    }
  }

  /** Every run's observations follow the grammar, whatever the gate, the callables and
      the interleaving; the terminal observation is there exactly when no error is raised. */
  lemma RunObeysGrammar(ctx: Ctx, state: State)
    requires ctx.graph.Valid()
    ensures var r := Run(ctx, state);
            var q := Scan(ctx.graph.maxSteps, Begin(state), Obs(r.log));
            && q != Bad && !q.Closing?
            && (r.Ended? <==> q.Over?)
  {
    hide Track, Next, Loop, Route, Scan, Obs;
    var max, p := ctx.graph.maxSteps, Begin(state);
    var edge := ctx.graph.EdgeFrom(START);
    TrackNothing(max, p);
    RouteTracks(max, p, ctx, START, edge, state, 0, []);
    var selected := Route(ctx, START, edge, state, 0, []);
    if selected.Go? {
      LoopTracks(max, p, ctx, state, 0, selected.value, START, selected.log);
    }
    TrackIsScan(max, p, Run(ctx, state).log);
  }
}
