/** Runs compared: a gated run against the ungated one, an always-allowing gate against
    no gate, and one interleaving of the branch tasks against another. One relation
    between two flows serves all three. */
module Refinement {
  import opened Values
  import opened Ordering
  import opened Protocol
  import opened Reducers
  import opened Topology
  import opened Engine

  // ----- observations of longer logs -----

  lemma ObsSnoc(log: Log, e: Event)
    ensures e.Observed? ==> Obs(log + [e]) == Obs(log) + [e.obs]
    ensures !e.Observed? ==> Obs(log + [e]) == Obs(log)
  {
    assert (log + [e])[..|log|] == log;
    assert Obs(log) + [] == Obs(log);
  }

  lemma ObsNothing()
    ensures Obs([]) == []
  {
  }

  lemma {:induction false} ObsAppend(a: Log, b: Log)
    ensures Obs(a + b) == Obs(a) + Obs(b)
  {
    hide Obs;
    if b == [] {
      assert a + b == a;
      ObsNothing();
    } else {
      var front, last := b[..|b| - 1], b[|b| - 1];
      ObsAppend(a, front);
      assert a + b == (a + front) + [last];
      ObsSnoc(a + front, last);
      ObsSnoc(front, last);
      assert b == front + [last];
    }
  }

  lemma ObsGrows(a: Log, b: Log)
    requires a <= b
    ensures Obs(a) <= Obs(b)
  {
    hide Obs;
    ObsAppend(a, b[|a|..]);
    assert b == a + b[|a|..];
  }

  // ----- the relation -----

  /** `Prefix`: the right run has no gate. `Exact`: both sides answer alike. */
  datatype Mode = Prefix | Exact

  /** Answers and hooks depend on the request alone. */
  ghost predicate Memoryless(gate: Gate) {
    gate.Gate? ==>
      && (forall l1: Log, l2: Log, r :: gate.dispatch(l1, r) == gate.dispatch(l2, r))
      && (forall l1: Log, l2: Log, c :: gate.commit(l1, c) == gate.commit(l2, c))
      && (gate.start.Some? ==> forall l1: Log, l2: Log, r :: gate.start.value(l1, r) == gate.start.value(l2, r))
      && (gate.settle.Some? ==> forall l1: Log, l2: Log, c :: gate.settle.value(l1, c) == gate.settle.value(l2, c))
  }

  /** Allows everything, and every hook completes. */
  ghost predicate Lenient(gate: Gate) {
    && gate.Gate?
    && (forall l, r :: gate.dispatch(l, r) == Says(Allow))
    && (forall l, c :: gate.commit(l, c) == Says(Allow))
    && (gate.start.Some? ==> forall l, r :: gate.start.value(l, r) == Completed)
    && (gate.settle.Some? ==> forall l, c :: gate.settle.value(l, c) == Completed)
  }

  ghost predicate Comparable(mode: Mode, a: Ctx, b: Ctx) {
    && a.graph == b.graph && a.token == b.token
    && match mode
       case Prefix => b.gate.NoGate?
       case Exact => (a.gate == b.gate && Memoryless(a.gate)) || (Lenient(a.gate) && b.gate.NoGate?)
  }

  function DropStop(obs: seq<Observation>): seq<Observation> {
    if obs != [] && obs[|obs| - 1].Stopped? then obs[..|obs| - 1] else obs
  }

  // ----- what a gated run hashes -----

  /** Between the start of a region and its commit. */
  function InRegion(obs: seq<Observation>): bool {
    if obs == [] then false else
    var last := obs[|obs| - 1];
    last.SuperstepStart? || (!last.SuperstepCommit? && InRegion(obs[..|obs| - 1]))
  }

  /** The published deltas: of single nodes and of region commits. */
  function Hashed(obs: seq<Observation>): seq<Delta> {
    if obs == [] then [] else
    var front, last := obs[..|obs| - 1], obs[|obs| - 1];
    Hashed(front) + if last.SuperstepCommit? || (last.NodeEnd? && !InRegion(front)) then [last.delta] else []
  }

  predicate AllJson(obs: seq<Observation>) { forall d <- Hashed(obs) :: JsonDelta(d) }

  predicate Outside(log: Log) { !InRegion(Obs(log)) }

  lemma HashedSnoc(obs: seq<Observation>, o: Observation)
    ensures InRegion(obs + [o]) <==> o.SuperstepStart? || (!o.SuperstepCommit? && InRegion(obs))
    ensures o.SuperstepCommit? || (o.NodeEnd? && !InRegion(obs)) ==> Hashed(obs + [o]) == Hashed(obs) + [o.delta]
    ensures !o.SuperstepCommit? && !(o.NodeEnd? && !InRegion(obs)) ==> Hashed(obs + [o]) == Hashed(obs)
  {
    assert (obs + [o])[..|obs|] == obs;
    assert Hashed(obs) + [] == Hashed(obs);
  }

  lemma {:induction false} HashedGrows(a: seq<Observation>, b: seq<Observation>)
    requires a <= b
    ensures Hashed(a) <= Hashed(b)
  {
    if a != b {
      HashedGrows(a, b[..|b| - 1]);
    }
  }

  // ----- the relation between two flows -----

  ghost predicate Same<T>(f: Flow<T>, g: Flow<T>) {
    && Obs(f.log) == Obs(g.log)
    && f.Go? == g.Go? && f.Ended? == g.Ended?
    && (f.Go? ==> f.value == g.value)
    && (f.Raise? ==> f.error == g.error)
  }

  /** The left run refused to hash a delta that the right run published. */
  ghost predicate Spoiled<T>(f: Flow<T>, g: Flow<T>) {
    f.Raise? && f.error == NotJson && Obs(f.log) <= Obs(g.log) && !AllJson(Obs(g.log))
  }

  /** While the left flow goes on, the right one does the same; once it ends, its
      observations up to a stop are a prefix of the right one's, or (`Exact`) the two
      end alike unless the left could not hash a delta. */
  ghost predicate Rel<T>(mode: Mode, a: Ctx, f: Flow<T>, g: Flow<T>) {
    && (a.gate.Gate? ==> AllJson(Obs(f.log)))
    && if f.Go? then g.Go? && f.value == g.value && Obs(f.log) == Obs(g.log)
       else match mode
            case Prefix => DropStop(Obs(f.log)) <= Obs(g.log)
            case Exact => Same(f, g) || (a.gate.Gate? && Spoiled(f, g))
  }

  /** Two logs from which related flows may start. */
  ghost predicate Level(a: Ctx, l: Log, m: Log) {
    Obs(l) == Obs(m) && (a.gate.Gate? ==> AllJson(Obs(l)))
  }

  /** Related first parts and related continuations make related wholes. */
  lemma Bind<T, U>(mode: Mode, a: Ctx, f: Flow<T>, g: Flow<T>, f': Flow<U>, g': Flow<U>)
    requires Rel(mode, a, f, g)
    requires !f.Go? ==> f' == f.PropagateFailure<U>()
    requires !g.Go? ==> g' == g.PropagateFailure<U>()
    requires g.log <= g'.log
    requires f.Go? ==> Rel(mode, a, f', g')
    ensures Rel(mode, a, f', g')
  {
    if !f.Go? {
      ObsGrows(g.log, g'.log);
      HashedGrows(Obs(g.log), Obs(g'.log));
    }
  }

  /** A flow related to itself started level. */
  lemma Twins<T>(mode: Mode, a: Ctx, f: Flow<T>, g: Flow<T>)
    requires Same(f, g) && (a.gate.Gate? ==> AllJson(Obs(f.log)))
    ensures Rel(mode, a, f, g)
  {
  }

  // ----- boundaries -----

  lemma HaltObs<T>(log: Log, state: State, node: string, steps: nat, reason: string)
    ensures var f := Halt<T>(log, state, node, steps, reason);
            && DropStop(Obs(f.log)) <= Obs(log) && Hashed(Obs(f.log)) == Hashed(Obs(log))
            && (forall m :: Obs(m) == Obs(log) ==> Same(f, Halt<T>(m, state, node, steps, reason)))
  {
    hide Obs, Hashed, InRegion;
    var f := Halt<T>(log, state, node, steps, reason);
    if f.Ended? {
      var e := f.log[|log|];
      ObsSnoc(log, e);
      HashedSnoc(Obs(log), e.obs);
      assert DropStop(Obs(f.log)) == Obs(log);
      forall m | Obs(m) == Obs(log) ensures Same(f, Halt<T>(m, state, node, steps, reason)) { ObsSnoc(m, e); }
    }
  }

  lemma PermitRel(mode: Mode, a: Ctx, b: Ctx, l: Log, m: Log, request: DispatchRequest, state: State, node: string,
                  steps: nat)
    requires Comparable(mode, a, b) && Level(a, l, m)
    ensures var f := Permit(a.gate, l, request, state, node, steps);
            && Rel(mode, a, f, Permit(b.gate, m, request, state, node, steps))
            && (f.Go? ==> Obs(f.log) == Obs(l))
  {
    hide Obs, Hashed;
    if a.gate.Gate? {
      var answer := a.gate.dispatch(l, request);
      var e := Decided(request, answer);
      ObsSnoc(l, e);
      if b.gate.Gate? {
        assert b.gate.dispatch(m, request) == answer;
        ObsSnoc(m, e);
      }
      if answer.Says? && answer.decision.Stop? {
        HaltObs<()>(l + [e], state, node, steps, answer.decision.reason);
      }
    }
  }

  lemma GuardRel(mode: Mode, a: Ctx, b: Ctx, l: Log, m: Log, request: DispatchRequest, state: State, node: string,
                 steps: nat)
    requires Comparable(mode, a, b) && Level(a, l, m)
    ensures var f := Guard(a.gate, l, request, state, node, steps);
            && Rel(mode, a, f, Guard(b.gate, m, request, state, node, steps))
            && (f.Go? ==> Obs(f.log) == Obs(l))
  {
    hide Permit;
    PermitRel(mode, a, b, l, m, request, state, node, steps);
    var f, g := Permit(a.gate, l, request, state, node, steps), Permit(b.gate, m, request, state, node, steps);
    if f.Go? {
      MarkRel(mode, a, b, f.log, g.log, request);
      var f', g' := Mark(a.gate, f.log, request), Mark(b.gate, g.log, request);
      ObsSnoc(f'.log, Entered(request));
      ObsSnoc(g'.log, Entered(request));
      Bind(mode, a, f', g', Guard(a.gate, l, request, state, node, steps),
           Guard(b.gate, m, request, state, node, steps));
    } else {
      Bind(mode, a, f, g, Guard(a.gate, l, request, state, node, steps), Guard(b.gate, m, request, state, node, steps));
    }
  }

  lemma MarkRel(mode: Mode, a: Ctx, b: Ctx, l: Log, m: Log, request: DispatchRequest)
    requires Comparable(mode, a, b) && Level(a, l, m)
    ensures var f := Mark(a.gate, l, request);
            Rel(mode, a, f, Mark(b.gate, m, request)) && Obs(f.log) == Obs(l)
  {
    hide Obs, Hashed;
    if a.gate.Durable() {
      var e := Marked(request, a.gate.start.value(l, request));
      ObsSnoc(l, e);
      if b.gate.Durable() { ObsSnoc(m, e); }
    }
  }

  lemma InterruptRel<T>(mode: Mode, a: Ctx, l: Log, m: Log, state: State, node: string, steps: nat,
                        branches: seq<string>, fault: Fault)
    requires Level(a, l, m) && fault.Interrupt?
    ensures Rel(mode, a, InterruptRun<T>(l, state, node, steps, branches, fault),
                InterruptRun<T>(m, state, node, steps, branches, fault))
  {
    hide Obs, Hashed;
    var f := InterruptRun<T>(l, state, node, steps, branches, fault);
    if f.Ended? {
      var e := f.log[|l|];
      ObsSnoc(l, e);
      ObsSnoc(m, e);
      HashedSnoc(Obs(l), e.obs);
    }
  }

  lemma RaiseRel<T>(mode: Mode, a: Ctx, l: Log, m: Log, error: Error)
    requires Level(a, l, m)
    ensures Rel<T>(mode, a, Raise(l, error), Raise(m, error))
  {
  }

  // ----- publication -----

  /** Like `Rel`, except that the left may balk at a delta that the right goes on with. */
  ghost predicate CommitRel(mode: Mode, a: Ctx, l: Log, m: Log, delta: Delta, f: Flow<()>, g: Flow<()>) {
    && Hashed(Obs(f.log)) == Hashed(Obs(l))
    && (f.Go? ==> g.Go? && Obs(f.log) == Obs(g.log) == Obs(l) && (a.gate.Gate? ==> JsonDelta(delta)))
    && (!f.Go? ==>
          match mode
          case Prefix => DropStop(Obs(f.log)) <= Obs(m)
          case Exact =>
            Same(f, g) || (a.gate.Gate? && f == Raise(l, NotJson) && g == Go(m, ()) && !JsonDelta(delta)))
  }

  lemma CommitsRelated(mode: Mode, a: Ctx, b: Ctx, l: Log, m: Log, request: CommitRequest, state: State, node: string,
                       steps: nat)
    requires Comparable(mode, a, b) && Level(a, l, m)
    ensures CommitRel(mode, a, l, m, request.digest.content, Commit(a.gate, l, request, state, node, steps),
                      Commit(b.gate, m, request, state, node, steps))
  {
    hide Obs, Hashed;
    var delta := request.digest.content;
    if a.gate.Gate? && CopyableDelta(delta) && JsonDelta(delta) {
      var answer := a.gate.commit(l, request);
      var e := CommitDecided(request, answer);
      ObsSnoc(l, e);
      if b.gate.Gate? {
        assert b.gate.commit(m, request) == answer;
        ObsSnoc(m, e);
      }
      if answer.Says? && answer.decision.Stop? {
        HaltObs<()>(l + [e], state, node, steps, answer.decision.reason);
      }
    }
  }

  lemma SettlementsRelated(mode: Mode, a: Ctx, b: Ctx, l: Log, m: Log, request: CommitRequest)
    requires Comparable(mode, a, b)
    ensures Obs(AfterCommit(a.gate, l, request).0) == Obs(l) && Obs(AfterCommit(b.gate, m, request).0) == Obs(m)
    ensures mode.Exact? ==> AfterCommit(a.gate, l, request).1 == AfterCommit(b.gate, m, request).1
    ensures b.gate.NoGate? ==> AfterCommit(b.gate, m, request).1 == None
  {
    hide Obs;
    if a.gate.Gate? && a.gate.settle.Some? { ObsSnoc(l, Settled(request, a.gate.settle.value(l, request))); }
    if b.gate.Gate? && b.gate.settle.Some? { ObsSnoc(m, Settled(request, b.gate.settle.value(m, request))); }
  }

  lemma PublishRel(mode: Mode, a: Ctx, b: Ctx, running: State, steps: nat, node: string, delta: Delta, l: Log, m: Log)
    requires Comparable(mode, a, b) && Level(a, l, m) && Outside(l)
    ensures var f := PublishNode(a.gate, running, steps, node, delta, l);
            && Rel(mode, a, f, PublishNode(b.gate, running, steps, node, delta, m))
            && (f.Go? ==> Outside(f.log))
  {
    hide Obs, Hashed, InRegion, Commit, AfterCommit;
    var request := CommitRequest(NodeCommit, [node], steps, None, Sha256(delta), None);
    CommitsRelated(mode, a, b, l, m, request, running, node, steps);
    var f, g := Commit(a.gate, l, request, running, node, steps), Commit(b.gate, m, request, running, node, steps);
    var end := NodeEnd(node, steps + 1, Merge(running, delta), delta);
    SettlementsRelated(mode, a, b, f.log, g.log, request);
    ObsSnoc(AfterCommit(a.gate, f.log, request).0, Observed(end));
    ObsSnoc(AfterCommit(b.gate, g.log, request).0, Observed(end));
    HashedSnoc(Obs(l), end);
    var f' := PublishNode(a.gate, running, steps, node, delta, l);
    var g' := PublishNode(b.gate, running, steps, node, delta, m);
    if f.Go? {
      assert Obs(f'.log) == Obs(l) + [end] == Obs(g'.log);
      assert a.gate.Gate? ==> AllJson(Obs(f'.log));
    } else if g.Go? {
      CommitGoesQuietly(b.gate, m, request, running, node, steps);
      assert Obs(g'.log) == Obs(m) + [end];
      if mode.Exact? { assert delta in Hashed(Obs(g'.log)); }
    } else {
      ObsGrows(m, g.log);
    }
  }

  lemma CommitGoesQuietly(gate: Gate, log: Log, request: CommitRequest, state: State, node: string, steps: nat)
    ensures var f := Commit(gate, log, request, state, node, steps); f.Go? ==> Obs(f.log) == Obs(log)
  {
    hide Obs;
    if gate.Gate? { ObsSnoc(log, CommitDecided(request, gate.commit(log, request))); }
  }

  // ----- a node -----

  lemma NodeRel(mode: Mode, a: Ctx, b: Ctx, state: State, steps: nat, node: string, l: Log, m: Log)
    requires Comparable(mode, a, b) && Level(a, l, m) && Outside(l)
    ensures var f := RunNode(a, state, steps, node, l);
            && Rel(mode, a, f, RunNode(b, state, steps, node, m))
            && (f.Go? ==> Outside(f.log))
  {
    hide Obs, Hashed, InRegion, Guard, PublishNode, InterruptRun, Unpack, Visit;
    var visited := Visit(state, [node]);
    if node in a.graph.nodes && visited.Some? {
      var running := visited.value;
      var start := NodeStart(node, steps, running);
      var site := NodeSite(node, steps);
      ObsSnoc(l, Observed(start));
      ObsSnoc(m, Observed(start));
      HashedSnoc(Obs(l), start);
      var l1, m1 := l + [Observed(start)], m + [Observed(start)];
      GuardRel(mode, a, b, l1, m1, site, running, node, steps);
      var f, g := Guard(a.gate, l1, site, running, node, steps), Guard(b.gate, m1, site, running, node, steps);
      if f.Go? {
        NodeAnswered(mode, a, b, running, steps, node, a.graph.nodes[node].call(running), f, g);
      }
      Bind(mode, a, f, g, RunNode(a, state, steps, node, l), RunNode(b, state, steps, node, m));
    }
  }

  /** What a node's answer leads to, on both sides. */
  lemma NodeAnswered(mode: Mode, a: Ctx, b: Ctx, running: State, steps: nat, node: string, answer: NodeAnswer,
                     f: Flow<()>, g: Flow<()>)
    requires Comparable(mode, a, b) && f.Go? && Rel(mode, a, f, g) && Outside(f.log)
    ensures var left := Left(NodeSite(node, steps), answer.Delivers?);
            var l, m := f.log + [left], g.log + [left];
            && Level(a, l, m)
            && (answer.Delivers? ==>
                  var f' := PublishNode(a.gate, running, steps, node, answer.delta, l);
                  && Rel(mode, a, f', PublishNode(b.gate, running, steps, node, answer.delta, m))
                  && (f'.Go? ==> Outside(f'.log)))
            && (answer.NodeThrows? && answer.fault.Interrupt? ==>
                  Rel(mode, a, InterruptRun<State>(l, running, node, steps, [], answer.fault),
                      InterruptRun<State>(m, running, node, steps, [], answer.fault)))
  {
    hide Obs, Hashed, InRegion, PublishNode, InterruptRun;
    var left := Left(NodeSite(node, steps), answer.Delivers?);
    ObsSnoc(f.log, left);
    ObsSnoc(g.log, left);
    if answer.Delivers? {
      PublishRel(mode, a, b, running, steps, node, answer.delta, f.log + [left], g.log + [left]);
    }
    if answer.NodeThrows? && answer.fault.Interrupt? {
      InterruptRel<State>(mode, a, f.log + [left], g.log + [left], running, node, steps, [], answer.fault);
    }
  }

  // ----- branch tasks -----

  lemma StepObs(ctx: Ctx, region: Region, i: nat, task: Task, log: Log)
    requires i < |region.branches| && region.In(ctx.graph) && !task.Finished?
    ensures Obs(StepTask(ctx, region, i, task, log).1) == Obs(log)
  {
    hide Obs;
    var site := region.Site(i);
    ObsSnoc(log, Entered(site));
    ObsSnoc(log, Left(site, Call(ctx.graph, region, i).Ok?));
    if ctx.gate.Durable() {
      ObsSnoc(log, Decided(site, ctx.gate.dispatch(log, site)));
      ObsSnoc(log, Marked(site, ctx.gate.start.value(log, site)));
      ObsSnoc(Mark(ctx.gate, log, site).log, Entered(site));
    }
  }

  /** What the gate makes of branch `i` when its answers depend on requests alone. */
  function Verdict(gate: Gate, graph: Graph, region: Region, i: nat): Settlement
    requires i < |region.branches| && region.In(graph)
  {
    var site := region.Site(i);
    if !gate.Durable() then Call(graph, region, i) else
    match Enforce(gate.dispatch([], site), site.nodes)
    case Failure(error) => NotAdmitted(error)
    case Success(Some(reason)) => BranchStopped(reason)
    case Success(None) =>
      match HookError(gate.start.value([], site))
      case Some(error) => NotStarted(error)
      case None => Call(graph, region, i)
  }

  /** A settled branch either ran its callable or was kept from it by a durable gate. */
  ghost predicate Possible(ctx: Ctx, region: Region, i: nat, o: Settlement)
    requires i < |region.branches| && region.In(ctx.graph)
  {
    o == Call(ctx.graph, region, i) || (ctx.gate.Durable() && (o.NotAdmitted? || o.BranchStopped? || o.NotStarted?))
  }

  /** Where task `i` stands agrees with where it must end. */
  ghost predicate OnCourse(ctx: Ctx, region: Region, i: nat, t: Task)
    requires i < |region.branches| && region.In(ctx.graph)
  {
    && (t.Finished? ==> Possible(ctx, region, i, t.outcome))
    && (t.Admitted? ==> ctx.gate.Durable())
    && (Memoryless(ctx.gate) ==>
          match t
          case Fresh => true
          case Admitted => Enforce(ctx.gate.dispatch([], region.Site(i)), region.Site(i).nodes) == Success(None)
          case Running => Verdict(ctx.gate, ctx.graph, region, i) == Call(ctx.graph, region, i)
          case Finished(o) => o == Verdict(ctx.gate, ctx.graph, region, i))
  }

  lemma StepOnCourse(ctx: Ctx, region: Region, i: nat, t: Task, log: Log)
    requires i < |region.branches| && region.In(ctx.graph) && !t.Finished? && OnCourse(ctx, region, i, t)
    ensures OnCourse(ctx, region, i, StepTask(ctx, region, i, t, log).0)
  {
    var site := region.Site(i);
    if ctx.gate.Durable() && Memoryless(ctx.gate) {
      assert ctx.gate.dispatch(log, site) == ctx.gate.dispatch([], site);
      assert ctx.gate.start.value(log, site) == ctx.gate.start.value([], site);
    }
  }

  /** Whatever the interleaving, the tasks settle silently and as they must. */
  lemma {:induction false} SettleOnCourse(ctx: Ctx, region: Region, tasks: seq<Task>, log: Log)
    requires |tasks| == |region.branches| && region.In(ctx.graph)
    requires forall i :: 0 <= i < |tasks| ==> OnCourse(ctx, region, i, tasks[i])
    ensures var (done, settled) := SettleAll(ctx, region, tasks, log);
            && Obs(settled) == Obs(log)
            && forall i :: 0 <= i < |done| ==> OnCourse(ctx, region, i, done[i])
    decreases Work(tasks)
  {
    hide Obs, OnCourse;
    if !AllFinished(tasks) {
      var i := Choose(tasks, ctx.pick(log));
      var (task, stepped) := StepTask(ctx, region, i, tasks[i], log);
      WorkUpdate(tasks, i, task);
      StepObs(ctx, region, i, tasks[i], log);
      StepOnCourse(ctx, region, i, tasks[i], log);
      SettleOnCourse(ctx, region, tasks[i := task], stepped);
    }
  }

  lemma VerdictsAgree(a: Ctx, b: Ctx, region: Region, i: nat)
    requires Comparable(Exact, a, b) && i < |region.branches| && region.In(a.graph)
    ensures Verdict(a.gate, a.graph, region, i) == Verdict(b.gate, b.graph, region, i)
    ensures Memoryless(a.gate) && Memoryless(b.gate)
  {
  }

  /** The two settled regions: alike, or the left one held back some branch. */
  ghost predicate SettledRel(mode: Mode, left: seq<Settlement>, right: seq<Settlement>) {
    && |left| == |right|
    && (left == right || (mode.Prefix? && exists i :: 0 <= i < |left| && HeldBack(left[i])))
  }

  predicate HeldBack(o: Settlement) { o.NotAdmitted? || o.BranchStopped? || o.NotStarted? }

  lemma SettleRel(mode: Mode, a: Ctx, b: Ctx, region: Region, l: Log, m: Log)
    requires Comparable(mode, a, b) && region.In(a.graph)
    ensures var tasks := FreshTasks(|region.branches|);
            var (left, l') := SettleAll(a, region, tasks, l);
            var (right, m') := SettleAll(b, region, tasks, m);
            Obs(l') == Obs(l) && Obs(m') == Obs(m) && SettledRel(mode, Outcomes(left), Outcomes(right))
  {
    hide Obs, SettleAll, Verdict, Memoryless;
    var tasks := FreshTasks(|region.branches|);
    SettleOnCourse(a, region, tasks, l);
    SettleOnCourse(b, region, tasks, m);
    var left, right := SettleAll(a, region, tasks, l).0, SettleAll(b, region, tasks, m).0;
    var x, y := Outcomes(left), Outcomes(right);
    forall i | 0 <= i < |left| ensures x[i] == y[i] || (mode.Prefix? && HeldBack(x[i])) {
      assert left[i] in left && right[i] in right;
      assert OnCourse(a, region, i, left[i]) && OnCourse(b, region, i, right[i]);
      if mode.Exact? { VerdictsAgree(a, b, region, i); }
    }
    if x != y { var i :| 0 <= i < |x| && x[i] != y[i]; assert HeldBack(x[i]); }
  }

  lemma {:induction false} HeldBackShows(settled: seq<Settlement>, i: nat)
    requires i < |settled| && HeldBack(settled[i])
    ensures AdmissionErrors(settled) != [] || StartErrors(settled) != [] || StopReasons(settled) != []
  {
    if i > 0 { HeldBackShows(settled[1..], i - 1); }
  }

  // ----- join, fold and commit -----

  lemma EnterReducerRel(mode: Mode, a: Ctx, b: Ctx, region: Region, state: State, completed: nat,
                        items: seq<Contribution>, key: string, l: Log, m: Log)
    requires Comparable(mode, a, b) && Level(a, l, m)
    ensures var f := EnterReducer(a, region, state, completed, items, key, l);
            && Rel(mode, a, f, EnterReducer(b, region, state, completed, items, key, m))
            && (f.Go? ==> Obs(f.log) == Obs(l))
  {
    hide Obs, Hashed, Mark, Permit;
    var site := region.Request(AtReducer, Names(items) + [key], completed);
    ObsSnoc(l, Entered(site));
    ObsSnoc(m, Entered(site));
    GuardRel(mode, a, b, l, m, site, state, region.source, region.steps);
    PlainGuard(b.gate, m, site, state, region.source, region.steps);
  }

  lemma PlainGuard(gate: Gate, log: Log, site: DispatchRequest, state: State, node: string, steps: nat)
    ensures gate.NoGate? ==> Guard(gate, log, site, state, node, steps) == Go(log + [Entered(site)], ())
  {
  }

  lemma FoldKeyRel(mode: Mode, a: Ctx, b: Ctx, region: Region, state: State, completed: nat, items: seq<Contribution>,
                   key: string, acc: Fold, l: Log, m: Log)
    requires Comparable(mode, a, b) && Level(a, l, m) && key in Keys(items)
    ensures var f := FoldKey(a, region, state, completed, items, key, acc, l);
            && Rel(mode, a, f, FoldKey(b, region, state, completed, items, key, acc, m))
            && (f.Go? ==> Obs(f.log) == Obs(l))
  {
    hide Obs, Hashed, EnterReducer, ReduceField;
    EnterReducerRel(mode, a, b, region, state, completed, items, key, l, m);
    Bind(mode, a, EnterReducer(a, region, state, completed, items, key, l),
         EnterReducer(b, region, state, completed, items, key, m),
         FoldKey(a, region, state, completed, items, key, acc, l),
         FoldKey(b, region, state, completed, items, key, acc, m));
  }

  lemma {:induction false} FoldRel(mode: Mode, a: Ctx, b: Ctx, region: Region, state: State, completed: nat,
                                   items: seq<Contribution>, keys: seq<string>, acc: Fold, l: Log, m: Log)
    requires Comparable(mode, a, b) && Level(a, l, m)
    requires forall k <- keys :: k in Keys(items)
    ensures var f := FoldKeys(a, region, state, completed, items, keys, acc, l);
            && Rel(mode, a, f, FoldKeys(b, region, state, completed, items, keys, acc, m))
            && (f.Go? ==> Obs(f.log) == Obs(l))
    decreases |keys|
  {
    hide Obs, Hashed, FoldKey;
    if keys != [] {
      FoldKeyRel(mode, a, b, region, state, completed, items, keys[0], acc, l, m);
      var f, g := FoldKey(a, region, state, completed, items, keys[0], acc, l),
                  FoldKey(b, region, state, completed, items, keys[0], acc, m);
      if f.Go? {
        FoldRel(mode, a, b, region, state, completed, items, keys[1..], f.value, f.log, g.log);
      }
      Bind(mode, a, f, g, FoldKeys(a, region, state, completed, items, keys, acc, l),
           FoldKeys(b, region, state, completed, items, keys, acc, m));
    }
  }

  /** Branch ends in a region are observed but not hashed. */
  lemma {:induction false} EndsObs(log: Log, items: seq<Contribution>, completed: nat, committed: State, n: nat)
    requires n <= |items| && InRegion(Obs(log))
    ensures var ends := EndEvents(items, completed, committed)[..n];
            && Obs(log + ends) == Obs(log) + Obs(ends)
            && InRegion(Obs(log + ends)) && Hashed(Obs(log + ends)) == Hashed(Obs(log))
  {
    hide Obs, Hashed, InRegion;
    var events := EndEvents(items, completed, committed);
    ObsAppend(log, events[..n]);
    if n > 0 {
      EndsObs(log, items, completed, committed, n - 1);
      assert log + events[..n] == (log + events[..n - 1]) + [events[n - 1]];
      ObsSnoc(log + events[..n - 1], events[n - 1]);
      HashedSnoc(Obs(log + events[..n - 1]), events[n - 1].obs);
    } else {
      assert log + events[..0] == log;
    }
  }

  lemma RegionEndObs(log: Log, items: seq<Contribution>, completed: nat, committed: State, commit: Observation)
    requires InRegion(Obs(log)) && commit.SuperstepCommit?
    ensures var ends := EndEvents(items, completed, committed);
            var all := log + ends + [Observed(commit)];
            && Obs(all) == Obs(log) + Obs(ends) + [commit]
            && Hashed(Obs(all)) == Hashed(Obs(log)) + [commit.delta]
            && Outside(all)
  {
    hide Obs, Hashed, InRegion;
    var ends := EndEvents(items, completed, committed);
    EndsObs(log, items, completed, committed, |items|);
    assert ends[..|items|] == ends;
    ObsSnoc(log + ends, Observed(commit));
    HashedSnoc(Obs(log + ends), commit);
  }

  lemma CommitRegionRel(mode: Mode, a: Ctx, b: Ctx, region: Region, edge: Edge, state: State, completed: nat,
                        items: seq<Contribution>, fold: Fold, l: Log, m: Log)
    requires Comparable(mode, a, b) && Level(a, l, m) && edge.FanOut? && InRegion(Obs(l))
    ensures var f := CommitRegion(a, region, edge, state, completed, items, fold, l);
            && Rel(mode, a, f, CommitRegion(b, region, edge, state, completed, items, fold, m))
            && (f.Go? ==> Outside(f.log))
  {
    hide Obs, Hashed, InRegion, Commit, AfterCommit, EndEvents;
    var request := CommitRequest(RegionCommit, Names(items), completed, Some(region.source), Sha256(fold.merged),
                                 Some(region.batch));
    CommitsRelated(mode, a, b, l, m, request, state, region.source, region.steps);
    CommitGoesQuietly(b.gate, m, request, state, region.source, region.steps);
    var f, g := Commit(a.gate, l, request, state, region.source, region.steps),
                Commit(b.gate, m, request, state, region.source, region.steps);
    SettlementsRelated(mode, a, b, f.log, g.log, request);
    var committed := Merge(region.snapshot, fold.merged);
    var commit := SuperstepCommit(region.source, edge.next, completed, Names(items), committed, fold.merged,
                                  fold.provenance);
    var f', g' := CommitRegion(a, region, edge, state, completed, items, fold, l),
                  CommitRegion(b, region, edge, state, completed, items, fold, m);
    if g.Go? {
      RegionEndObs(AfterCommit(b.gate, g.log, request).0, items, completed, committed, commit);
    }
    if f.Go? {
      RegionEndObs(AfterCommit(a.gate, f.log, request).0, items, completed, committed, commit);
      assert Obs(f'.log) == Obs(g'.log);
      assert a.gate.Gate? ==> AllJson(Obs(f'.log));
    } else if g.Go? {
      ObsGrows(m, g'.log);
      if mode.Exact? { assert fold.merged in Hashed(Obs(g'.log)); }
    } else {
      ObsGrows(m, g.log);
    }
  }

  lemma FoldRegionRel(mode: Mode, a: Ctx, b: Ctx, region: Region, edge: Edge, state: State, completed: nat,
                      items: seq<Contribution>, l: Log, m: Log)
    requires Comparable(mode, a, b) && Level(a, l, m) && edge.FanOut? && InRegion(Obs(l)) && region.steps <= completed
    ensures var f := FoldRegion(a, region, edge, state, completed, items, l);
            && Rel(mode, a, f, FoldRegion(b, region, edge, state, completed, items, m))
            && (f.Go? ==> Outside(f.log))
  {
    hide Obs, Hashed, InRegion, Permit, FoldKeys, CommitRegion;
    var request := region.Request(AtReducer, Names(items), completed);
    PermitRel(mode, a, b, l, m, request, state, region.source, region.steps);
    var f, g := Permit(a.gate, l, request, state, region.source, region.steps),
                Permit(b.gate, m, request, state, region.source, region.steps);
    var f'', g'' := FoldRegion(a, region, edge, state, completed, items, l),
                    FoldRegion(b, region, edge, state, completed, items, m);
    if f.Go? {
      var keys, none := SortedKeys(Keys(items)), Fold(map[], map[]);
      FoldRel(mode, a, b, region, state, completed, items, keys, none, f.log, g.log);
      var f', g' := FoldKeys(a, region, state, completed, items, keys, none, f.log),
                    FoldKeys(b, region, state, completed, items, keys, none, g.log);
      if f'.Go? {
        CommitRegionRel(mode, a, b, region, edge, state, completed, items, f'.value, f'.log, g'.log);
      }
      Bind(mode, a, f', g', f'', g'');
    } else {
      Bind(mode, a, f, g, f'', g'');
    }
  }

  lemma AdmitRel(mode: Mode, a: Ctx, b: Ctx, region: Region, edge: Edge, state: State, completed: nat,
                 settled: seq<Settlement>, l: Log, m: Log)
    requires Comparable(mode, a, b) && Level(a, l, m) && edge.FanOut? && InRegion(Obs(l))
    requires |settled| == |region.branches| && region.steps <= completed
    ensures var f := AdmitRegion(a, region, edge, state, completed, settled, l);
            && Rel(mode, a, f, AdmitRegion(b, region, edge, state, completed, settled, m))
            && (f.Go? ==> Outside(f.log))
  {
    hide Obs, Hashed, InRegion, FoldRegion, Admit;
    var r := Admit(region.source, edge.join, region.branches, settled);
    if r.Success? {
      FoldRegionRel(mode, a, b, region, edge, state, completed, r.value, l, m);
    } else {
      RaiseRel<Progress>(mode, a, l, m, r.error);
    }
  }

  lemma JoinRel(mode: Mode, a: Ctx, b: Ctx, region: Region, edge: Edge, state: State, settled: seq<Settlement>, l: Log,
                m: Log)
    requires Comparable(mode, a, b) && Level(a, l, m) && edge.FanOut? && InRegion(Obs(l))
    requires |settled| == |region.branches|
    ensures var f := JoinRegion(a, region, edge, state, settled, l);
            && Rel(mode, a, f, JoinRegion(b, region, edge, state, settled, m))
            && (f.Go? ==> Outside(f.log))
  {
    hide Obs, Hashed, InRegion, AdmitRegion, Guard;
    var completed := region.steps + |Successes(region.branches, settled)|;
    GuardRel(mode, a, b, l, m, region.Request(AtJoin, region.branches, completed), state, region.source, region.steps);
    var f := GuardJoin(a, region, edge.join, state, completed, l);
    var g := GuardJoin(b, region, edge.join, state, completed, m);
    if f.Go? { AdmitRel(mode, a, b, region, edge, state, completed, settled, f.log, g.log); }
    Bind(mode, a, f, g, JoinRegion(a, region, edge, state, settled, l), JoinRegion(b, region, edge, state, settled, m));
  }

  lemma CloseRel(mode: Mode, a: Ctx, b: Ctx, region: Region, edge: Edge, state: State, left: seq<Settlement>,
                 right: seq<Settlement>, l: Log, m: Log)
    requires Comparable(mode, a, b) && Level(a, l, m) && edge.FanOut? && InRegion(Obs(l))
    requires |left| == |region.branches| && SettledRel(mode, left, right)
    ensures var f := CloseRegion(a, region, edge, state, left, l);
            && Rel(mode, a, f, CloseRegion(b, region, edge, state, right, m))
            && (f.Go? ==> Outside(f.log))
  {
    hide Obs, Hashed, InRegion, CloseRegion;
    if left == right {
      CloseAlike(mode, a, b, region, edge, state, left, l, m);
    } else {
      CloseHeldBack(a, region, edge, state, left, l);
      ObsGrows(m, CloseRegion(b, region, edge, state, right, m).log);
    }
  }

  /** A region with a branch held back ends there: it raises, or it stops. */
  lemma CloseHeldBack(a: Ctx, region: Region, edge: Edge, state: State, settled: seq<Settlement>, l: Log)
    requires edge.FanOut? && |settled| == |region.branches|
    requires exists i :: 0 <= i < |settled| && HeldBack(settled[i])
    ensures var f := CloseRegion(a, region, edge, state, settled, l);
            !f.Go? && DropStop(Obs(f.log)) <= Obs(l) && Hashed(Obs(f.log)) == Hashed(Obs(l))
  {
    hide Obs, Hashed, InRegion, JoinRegion, Halt, InterruptRun, FirstInterrupt, AdmissionErrors, StartErrors,
         StopReasons;
    var i :| 0 <= i < |settled| && HeldBack(settled[i]);
    HeldBackShows(settled, i);
    var stops := StopReasons(settled);
    if stops != [] { HaltObs<Progress>(l, state, region.source, region.steps, stops[0]); }
  }

  lemma CloseAlike(mode: Mode, a: Ctx, b: Ctx, region: Region, edge: Edge, state: State, settled: seq<Settlement>,
                   l: Log, m: Log)
    requires Comparable(mode, a, b) && Level(a, l, m) && edge.FanOut? && InRegion(Obs(l))
    requires |settled| == |region.branches|
    ensures var f := CloseRegion(a, region, edge, state, settled, l);
            && Rel(mode, a, f, CloseRegion(b, region, edge, state, settled, m))
            && (f.Go? ==> Outside(f.log))
  {
    hide Obs, Hashed, InRegion, JoinRegion, Halt, InterruptRun, AdmissionErrors, StartErrors, StopReasons,
         FirstInterrupt;
    var stops, paused := StopReasons(settled), FirstInterrupt(settled);
    if AdmissionErrors(settled) != [] || StartErrors(settled) != [] {
    } else if stops != [] {
      HaltRel<Progress>(mode, a, l, m, state, region.source, region.steps, stops[0]);
    } else if paused < |settled| {
      InterruptRel<Progress>(mode, a, l, m, region.snapshot, region.branches[paused], region.steps, region.branches,
                             settled[paused].error.fault);
    } else {
      JoinRel(mode, a, b, region, edge, state, settled, l, m);
    }
  }

  lemma HaltRel<T>(mode: Mode, a: Ctx, l: Log, m: Log, state: State, node: string, steps: nat, reason: string)
    requires Level(a, l, m)
    ensures Rel(mode, a, Halt<T>(l, state, node, steps, reason), Halt<T>(m, state, node, steps, reason))
  {
    hide Obs, Hashed, Halt;
    HaltObs<T>(l, state, node, steps, reason);
    ObsGrows(m, Halt<T>(m, state, node, steps, reason).log);
  }

  lemma OpenObs(ctx: Ctx, source: string, edge: Edge, state: State, steps: nat, l: Log, m: Log)
    requires edge.FanOut? && Obs(l) == Obs(m)
    ensures var f, g := OpenRegion(ctx, source, edge, state, steps, l), OpenRegion(ctx, source, edge, state, steps, m);
            Same(f, g) && Hashed(Obs(f.log)) == Hashed(Obs(l)) && (f.Go? ==> InRegion(Obs(f.log)))
  {
    hide Obs, Hashed, InRegion;
    var f := OpenRegion(ctx, source, edge, state, steps, l);
    if f.Go? {
      var region := f.value;
      var e := Observed(SuperstepStart(source, edge.next, steps, region.branches, region.snapshot));
      ObsSnoc(l, e);
      ObsSnoc(m, e);
      HashedSnoc(Obs(l), e.obs);
      StartsObs(l + [e], region, |region.branches|);
      ObsAppend(l + [e], StartEvents(region, |region.branches|));
      ObsAppend(m + [e], StartEvents(region, |region.branches|));
    }
  }

  lemma {:induction false} StartsObs(log: Log, region: Region, n: nat)
    requires n <= |region.branches| && InRegion(Obs(log))
    ensures InRegion(Obs(log + StartEvents(region, n))) && Hashed(Obs(log + StartEvents(region, n))) == Hashed(Obs(log))
  {
    hide Obs, Hashed, InRegion;
    if n == 0 {
      assert log + StartEvents(region, 0) == log;
    } else {
      StartsObs(log, region, n - 1);
      var e := Observed(NodeStart(region.branches[n - 1], region.steps, region.snapshot));
      assert log + StartEvents(region, n) == (log + StartEvents(region, n - 1)) + [e];
      ObsSnoc(log + StartEvents(region, n - 1), e);
      HashedSnoc(Obs(log + StartEvents(region, n - 1)), e.obs);
    }
  }

  lemma OpenSame(a: Ctx, b: Ctx, source: string, edge: Edge, state: State, steps: nat, log: Log)
    requires a.graph == b.graph && a.token == b.token && edge.FanOut?
    ensures OpenRegion(a, source, edge, state, steps, log) == OpenRegion(b, source, edge, state, steps, log)
  {
  }

  lemma RegionRel(mode: Mode, a: Ctx, b: Ctx, source: string, edge: Edge, state: State, steps: nat, l: Log, m: Log)
    requires Comparable(mode, a, b) && Level(a, l, m) && edge.FanOut?
    ensures var f := RunRegion(a, source, edge, state, steps, l);
            && Rel(mode, a, f, RunRegion(b, source, edge, state, steps, m))
            && (f.Go? ==> Outside(f.log))
  {
    hide Obs, Hashed, InRegion, OpenRegion, Permit, SettleAll, CloseRegion;
    OpenObs(a, source, edge, state, steps, l, m);
    OpenSame(a, b, source, edge, state, steps, m);
    var f, g := OpenRegion(a, source, edge, state, steps, l), OpenRegion(b, source, edge, state, steps, m);
    Twins(mode, a, f, g);
    var f'', g'' := RunRegion(a, source, edge, state, steps, l), RunRegion(b, source, edge, state, steps, m);
    if f.Go? {
      var region := f.value;
      var request := region.Request(AtFanOut, region.branches, steps);
      PermitRel(mode, a, b, f.log, g.log, request, state, source, steps);
      var f', g' := Permit(a.gate, f.log, request, state, source, steps),
                    Permit(b.gate, g.log, request, state, source, steps);
      if f'.Go? {
        var tasks := FreshTasks(|region.branches|);
        SettleRel(mode, a, b, region, f'.log, g'.log);
        var (left, l') := SettleAll(a, region, tasks, f'.log);
        var (right, m') := SettleAll(b, region, tasks, g'.log);
        CloseRel(mode, a, b, region, edge, state, Outcomes(left), Outcomes(right), l', m');
      }
      Bind(mode, a, f', g', f'', g'');
    } else {
      Bind(mode, a, f, g, f'', g'');
    }
  }

  // ----- the run -----

  lemma RouteRel(mode: Mode, a: Ctx, b: Ctx, source: string, edge: Edge, state: State, steps: nat, l: Log, m: Log)
    requires Comparable(mode, a, b) && Level(a, l, m) && Outside(l)
    ensures var f := Route(a, source, edge, state, steps, l);
            && Rel(mode, a, f, Route(b, source, edge, state, steps, m))
            && (f.Go? ==> Outside(f.log))
  {
    hide Obs, Hashed, InRegion, Guard, Resolve;
    var site := RouterSite(source, steps);
    GuardRel(mode, a, b, l, m, site, state, source, steps);
    var f := if edge.Conditional? then Guard(a.gate, l, site, state, source, steps) else Go(l, ());
    var g := if edge.Conditional? then Guard(b.gate, m, site, state, source, steps) else Go(m, ());
    var f', g' := Route(a, source, edge, state, steps, l), Route(b, source, edge, state, steps, m);
    var r := Resolve(a.graph, edge, state);
    if f.Go? {
      if r.Success? {
        var o := EdgeSelected(source, r.value, steps, state);
        ObsSnoc(f.log, Observed(o));
        ObsSnoc(g.log, Observed(o));
        HashedSnoc(Obs(f.log), o);
      } else {
        RaiseRel<string>(mode, a, f.log, g.log, r.error);
      }
    }
    Bind(mode, a, f, g, f', g');
  }

  lemma TurnRel(mode: Mode, a: Ctx, b: Ctx, state: State, steps: nat, node: string, l: Log, m: Log)
    requires Comparable(mode, a, b) && Level(a, l, m) && Outside(l)
    ensures var f := TakeTurn(a, state, steps, node, l);
            && Rel(mode, a, f, TakeTurn(b, state, steps, node, m))
            && (f.Go? ==> Outside(f.log))
  {
    hide Obs, Hashed, InRegion, RunNode, RunRegion, Route;
    NodeRel(mode, a, b, state, steps, node, l, m);
    var f, g := RunNode(a, state, steps, node, l), RunNode(b, state, steps, node, m);
    var whole, whole' := TakeTurn(a, state, steps, node, l), TakeTurn(b, state, steps, node, m);
    if f.Go? {
      var edge := a.graph.EdgeFrom(node);
      var onward := if edge.FanOut? then Static(edge.next) else edge;
      if edge.FanOut? { RegionRel(mode, a, b, node, edge, f.value, steps + 1, f.log, g.log); }
      var f' := if edge.FanOut? then RunRegion(a, node, edge, f.value, steps + 1, f.log)
                else Go(f.log, Progress(f.value, steps + 1));
      var g' := if edge.FanOut? then RunRegion(b, node, edge, g.value, steps + 1, g.log)
                else Go(g.log, Progress(g.value, steps + 1));
      if f'.Go? {
        RouteRel(mode, a, b, node, onward, f'.value.state, f'.value.steps, f'.log, g'.log);
        var f'' := Route(a, node, onward, f'.value.state, f'.value.steps, f'.log);
        var g'' := Route(b, node, onward, g'.value.state, g'.value.steps, g'.log);
        Bind(mode, a, f'', g'', whole, whole');
      } else {
        Bind(mode, a, f', g', whole, whole');
      }
    } else {
      Bind(mode, a, f, g, whole, whole');
    }
  }

  lemma {:induction false} LoopRel(mode: Mode, a: Ctx, b: Ctx, state: State, steps: nat, node: string, last: string,
                                   l: Log, m: Log)
    requires Comparable(mode, a, b) && Level(a, l, m) && Outside(l)
    ensures Rel(mode, a, Loop(a, state, steps, node, last, l), Loop(b, state, steps, node, last, m))
    decreases a.graph.maxSteps - steps
  {
    hide Obs, Hashed, InRegion, TakeTurn;
    var whole, whole' := Loop(a, state, steps, node, last, l), Loop(b, state, steps, node, last, m);
    if node == END {
      var o := Done(steps, Merge(state, map[STATUS := Str("done")]));
      ObsSnoc(l, Observed(o));
      ObsSnoc(m, Observed(o));
      HashedSnoc(Obs(l), o);
    } else if steps < a.graph.maxSteps {
      TurnRel(mode, a, b, state, steps, node, l, m);
      var f, g := TakeTurn(a, state, steps, node, l), TakeTurn(b, state, steps, node, m);
      if f.Go? {
        LoopRel(mode, a, b, f.value.state, f.value.steps, f.value.target, node, f.log, g.log);
      }
      Bind(mode, a, f, g, whole, whole');
    }
  }

  lemma RunRel(mode: Mode, a: Ctx, b: Ctx, state: State)
    requires Comparable(mode, a, b)
    ensures Rel(mode, a, Run(a, state), Run(b, state))
  {
    hide Route, Loop;
    var edge := a.graph.EdgeFrom(START);
    RouteRel(mode, a, b, START, edge, state, 0, [], []);
    var f, g := Route(a, START, edge, state, 0, []), Route(b, START, edge, state, 0, []);
    if f.Go? { LoopRel(mode, a, b, state, 0, f.value, START, f.log, g.log); }
    Bind(mode, a, f, g, Run(a, state), Run(b, state));
  }

  /** The same graph and tokens without a gate, under any other interleaving. */
  function Ungated(ctx: Ctx, pick: Log -> nat): Ctx { ctx.(gate := NoGate, pick := pick) }

  /** Whatever a gate answers, what a gated run shows, up to a final stop, is a prefix of
      what the ungated run shows, even if the two interleave their branches differently. */
  lemma GatedRunIsAPrefix(ctx: Ctx, pick: Log -> nat, state: State)
    ensures DropStop(Obs(Run(ctx, state).log)) <= Obs(Run(Ungated(ctx, pick), state).log)
  {
    hide Run, Obs;
    RunRel(Prefix, ctx, Ungated(ctx, pick), state);
  }

  /** A gate that allows everything and whose hooks complete changes nothing that is
      seen, and not how the run ends, exactly when every delta the ungated run publishes
      is canonical JSON. */
  lemma LenientGateIsInvisible(ctx: Ctx, pick: Log -> nat, state: State)
    requires Lenient(ctx.gate)
    ensures var free := Run(Ungated(ctx, pick), state);
            Same(Run(ctx, state), free) <==> AllJson(Obs(free.log))
  {
    hide Run, Obs, Hashed;
    RunRel(Exact, ctx, Ungated(ctx, pick), state);
  }

  /** With a gate that judges requests alone, or none, the event loop's choices decide
      nothing: not the observations, hence not the final state, and not the error. */
  lemma InterleavingIsInvisible(ctx: Ctx, pick: Log -> nat, state: State)
    requires Memoryless(ctx.gate)
    ensures Same(Run(ctx, state), Run(ctx.(pick := pick), state))
  {
    hide Run, Obs;
    RunRel(Exact, ctx, ctx.(pick := pick), state);
    RunRel(Exact, ctx.(pick := pick), ctx, state);
  }
}
