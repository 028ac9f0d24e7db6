/** The scheduler does what is due: every run, its regions included, is one event after
    another of the rule, and nothing else. */
module Obedience {
  import opened Values
  import opened Ordering
  import opened Protocol
  import opened Reducers
  import opened Topology
  import opened Engine
  import opened Origins
  import opened Conduct
  import JoinLaws

  // ----- what does not change -----

  /** The two logs tell the same. */
  ghost predicate Alike(ctx: Ctx, initial: State, a: Log, b: Log) {
    && Given(a) == Given(b) && Published(initial, a) == Published(initial, b) && Opened(a) == Opened(b)
    && Concluded(ctx, a) == Concluded(ctx, b)
  }

  lemma CurrentStays(ctx: Ctx, log: Log, e: Event)
    requires e.Observed? ==> !e.obs.SuperstepStart? && !e.obs.EdgeSelected?
    ensures Current(ctx, log + [e]) == Current(ctx, log)
  {
    assert (log + [e])[..|log|] == log;
  }

  lemma StandingsStay(graph: Graph, region: Region, log: Log, e: Event)
    requires e.Observed? ==> !e.obs.SuperstepStart?
    requires forall i :: 0 <= i < |region.branches| ==> RequestOf(e) != Some(region.Site(i))
    ensures Standings(graph, region, log + [e]) == Standings(graph, region, log)
  {
    assert (log + [e])[..|log|] == log;
  }

  lemma StandingsMove(graph: Graph, region: Region, i: nat, log: Log, e: Event)
    requires i < |region.branches| && Ascending(region.branches) && RequestOf(e) == Some(region.Site(i))
    ensures Standings(graph, region, log + [e]) == Standings(graph, region, log)[i := StandsAfter(graph, region, i, e)]
  {
    hide StandsAfter, StrLe;
    assert (log + [e])[..|log|] == log;
    forall j | 0 <= j < |region.branches| && j != i ensures region.Site(j) != region.Site(i) {
      assert j < i ==> StrLt(region.branches[j], region.branches[i]);
      assert i < j ==> StrLt(region.branches[i], region.branches[j]);
    }
  }

  /** An event that is neither observed nor about a branch leaves what the log tells as it is. */
  lemma Quietly(ctx: Ctx, initial: State, log: Log, e: Event)
    requires !e.Observed? && (RequestOf(e).Some? ==> !OfBranch(RequestOf(e).value))
    ensures Alike(ctx, initial, log, log + [e])
  {
    hide Given, Published, Opened, Hooked, Current, Standings;
    Reads(initial, log, e);
    CurrentStays(ctx, log, e);
    if Current(ctx, log).Some? { StandingsStay(ctx.graph, Current(ctx, log).value, log, e); }
  }

  // ----- boundaries -----

  /** A stop at this boundary happens at `node`, in `state`. */
  ghost predicate StopsAt(initial: State, log: Log, q: DispatchRequest, state: State, node: string, steps: nat) {
    match q.boundary
    case AtNode => q.nodes == [node] && q.steps == steps && node in Given(log) && Given(log)[node] == state
    case AtRouter => q.nodes == [node] && q.steps == steps && Published(initial, log) == state
    case _ => Opened(log) == Some((node, steps)) && Published(initial, log) == state
  }

  lemma PermitFits(ctx: Ctx, initial: State, log: Log, q: DispatchRequest, state: State, node: string, steps: nat)
    requires Lawful(ctx, initial, log) && !OfBranch(q) && StopsAt(initial, log, q, state, node, steps)
    requires ctx.gate.Gate? ==> Rule(ctx, initial, log) == Emit(Decided(q, ctx.gate.dispatch(log, q)))
    ensures var f := Permit(ctx.gate, log, q, state, node, steps);
            && (!f.Go? ==> Fits(ctx, initial, f))
            && (f.Go? ==> Lawful(ctx, initial, f.log) && Alike(ctx, initial, log, f.log))
            && (f.Go? && ctx.gate.NoGate? ==> f.log == log)
            && (f.Go? && ctx.gate.Gate? ==>
                  && f.log == log + [Decided(q, Says(Allow))] && Hooked(f.log).None?
                  && Rule(ctx, initial, f.log) == After(ctx, initial, f.log, Decided(q, Says(Allow))))
  {
    hide Lawful, Rule, Given, Published, Opened, Hooked, Halting, Acting, Halt, Concluded, Stepping, FoldAllowed;
    if ctx.gate.Gate? {
      var answer := ctx.gate.dispatch(log, q);
      var e := Decided(q, answer);
      Step(ctx, initial, log, e);
      Reads(initial, log, e);
      Quietly(ctx, initial, log, e);
      if answer.Says? && answer.decision.Stop? {
        HaltFits<()>(ctx, initial, log + [e], state, node, steps, answer.decision.reason);
      }
    }
  }

  lemma MarkFits(ctx: Ctx, initial: State, log: Log, q: DispatchRequest)
    requires Lawful(ctx, initial, log) && Rule(ctx, initial, log) == Acting(ctx.gate, log, q) && !OfBranch(q)
    ensures var f := Mark(ctx.gate, log, q);
            && Lawful(ctx, initial, f.log) && Alike(ctx, initial, log, f.log) && !f.Ended?
            && (f.Raise? ==> Rule(ctx, initial, f.log) == Fail(f.error))
            && (f.Go? ==> Proper(ctx, initial, f.log, Entered(q)))
  {
    hide Lawful, Rule, Alike, Stepping;
    if ctx.gate.Durable() {
      var e := Marked(q, ctx.gate.start.value(log, q));
      Step(ctx, initial, log, e);
      Quietly(ctx, initial, log, e);
    } else {
      assert Alike(ctx, initial, log, log) by { AlikeSelf(ctx, initial, log); }
    }
  }

  lemma AlikeSelf(ctx: Ctx, initial: State, log: Log)
    ensures Alike(ctx, initial, log, log)
  {
  }

  /** An allow for `q` is an allow for the callable it names, not for a whole batch. */
  ghost predicate NamesCallable(ctx: Ctx, log: Log, q: DispatchRequest) {
    && !q.boundary.AtFanOut?
    && (q.boundary.AtReducer? ==>
          && Concluded(ctx, log).Some? && Concluded(ctx, log).value.Admitted().Success?
          && q.nodes != Names(Concluded(ctx, log).value.Admitted().value))
  }

  lemma GuardFits(ctx: Ctx, initial: State, log: Log, q: DispatchRequest, state: State, node: string, steps: nat)
    requires Lawful(ctx, initial, log) && Rule(ctx, initial, log) == Asking(ctx.gate, log, q)
    requires !OfBranch(q) && NamesCallable(ctx, log, q) && StopsAt(initial, log, q, state, node, steps)
    ensures var f := Guard(ctx.gate, log, q, state, node, steps);
            && (!f.Go? ==> Fits(ctx, initial, f))
            && (f.Go? ==>
                  && Lawful(ctx, initial, f.log) && Alike(ctx, initial, log, f.log) && Hooked(f.log).None?
                  && Ends(f.log) == []
                  && Rule(ctx, initial, f.log) == After(ctx, initial, f.log, Entered(q)))
  {
    hide Lawful, Rule, Given, Published, Opened, Hooked, Permit, Mark, After, Proper, Concluded, Acting;
    PermitFits(ctx, initial, log, q, state, node, steps);
    var allowed := Permit(ctx.gate, log, q, state, node, steps);
    if allowed.Go? {
      AllowedActs(ctx, initial, log, q);
      MarkFits(ctx, initial, allowed.log, q);
      var marked := Mark(ctx.gate, allowed.log, q);
      if marked.Go? {
        assert marked.log + [Entered(q)] == Guard(ctx.gate, log, q, state, node, steps).log;
        Step(ctx, initial, marked.log, Entered(q));
        Reads(initial, marked.log, Entered(q));
        Quietly(ctx, initial, marked.log, Entered(q));
        assert (marked.log + [Entered(q)])[|marked.log|] == Entered(q);
      }
    }
  }

  lemma AllowedActs(ctx: Ctx, initial: State, log: Log, q: DispatchRequest)
    requires !OfBranch(q) && NamesCallable(ctx, log, q)
    ensures var asked := log + [Decided(q, Says(Allow))];
            && After(ctx, initial, asked, Decided(q, Says(Allow))) == Acting(ctx.gate, asked, q)
            && (ctx.gate.NoGate? ==> Asking(ctx.gate, log, q) == Acting(ctx.gate, log, q))
  {
    hide Concluded, Folding, Given, Published, Opened, Hooked, Stepping, Ends;
    Quietly(ctx, initial, log, Decided(q, Says(Allow)));
  }

  // ----- commits -----

  /** A stop at this commit happens at `node`, in `state`. */
  ghost predicate CommitsAt(initial: State, log: Log, c: CommitRequest, state: State, node: string, steps: nat) {
    match c.boundary
    case NodeCommit => c.nodes == [node] && c.steps == steps && node in Given(log) && Given(log)[node] == state
    case RegionCommit => Opened(log) == Some((node, steps)) && Published(initial, log) == state
  }

  lemma CommitFits(ctx: Ctx, initial: State, log: Log, c: CommitRequest, shown: Due, state: State, node: string,
                   steps: nat)
    requires Lawful(ctx, initial, log) && Rule(ctx, initial, log) == Delivering(ctx, log, c, shown)
    requires CommitsAt(initial, log, c, state, node, steps)
    ensures var f := Commit(ctx.gate, log, c, state, node, steps);
            && (!f.Go? ==> Fits(ctx, initial, f))
            && (f.Go? ==>
                  && Lawful(ctx, initial, f.log) && Alike(ctx, initial, log, f.log)
                  && CopyableDelta(c.digest.content))
            && (f.Go? && ctx.gate.NoGate? ==> f.log == log && Rule(ctx, initial, log) == shown)
            && (f.Go? && ctx.gate.Gate? ==>
                  && Hooked(f.log).None? && Ends(f.log) == []
                  && Rule(ctx, initial, f.log) == After(ctx, initial, f.log, CommitDecided(c, Says(Allow))))
  {
    hide Lawful, Rule, Given, Published, Opened, Hooked, Halting, Halt, Showing, Concluded, Publishing;
    if ctx.gate.Gate? && CopyableDelta(c.digest.content) && JsonDelta(c.digest.content) {
      var answer := ctx.gate.commit(log, c);
      var e := CommitDecided(c, answer);
      Step(ctx, initial, log, e);
      Reads(initial, log, e);
      Quietly(ctx, initial, log, e);
      assert (log + [e])[|log|] == e;
      if answer.Says? && answer.decision.Stop? {
        HaltFits<()>(ctx, initial, log + [e], state, node, steps, answer.decision.reason);
      }
    }
  }

  /** The settlement hook comes right after the allow; its error is kept. */
  lemma AfterCommitFits(ctx: Ctx, initial: State, log: Log, c: CommitRequest, shown: Due)
    requires Lawful(ctx, initial, log) && Hooked(log).None?
    requires ctx.gate.Gate? ==>
               && Rule(ctx, initial, log) == After(ctx, initial, log, CommitDecided(c, Says(Allow)))
               && Ends(log) == []
    requires ctx.gate.NoGate? ==> Rule(ctx, initial, log) == shown
    ensures var (settled, failure) := AfterCommit(ctx.gate, log, c);
            && Lawful(ctx, initial, settled) && Alike(ctx, initial, log, settled)
            && (ctx.gate.NoGate? ==> settled == log && Rule(ctx, initial, settled) == shown)
            && (ctx.gate.Gate? ==> Rule(ctx, initial, settled) == Showing(ctx, settled, c) && Ends(settled) == [])
            && failure == if Hooked(settled).Some? then HookError(Hooked(settled).value) else None
  {
    hide Lawful, Rule, Given, Published, Opened, Hooked, Concluded, Showing;
    if ctx.gate.Gate? && ctx.gate.settle.Some? {
      var e := Settled(c, ctx.gate.settle.value(log, c));
      Step(ctx, initial, log, e);
      Reads(initial, log, e);
      Quietly(ctx, initial, log, e);
      assert (log + [e])[|log|] == e;
    }
  }

  // ----- a node -----

  /** `state` was published for `node`; what follows the node is due. */
  ghost predicate Rested(ctx: Ctx, initial: State, log: Log, node: string, steps: nat, state: State, committed: bool) {
    && Lawful(ctx, initial, log) && Published(initial, log) == state
    && Rule(ctx, initial, log) ==
         (if !committed && node in ctx.graph.edges && ctx.graph.edges[node].FanOut? then
            var edge := ctx.graph.edges[node];
            Opening(ctx.graph, node, edge.branches, edge.next, steps, state)
          else Leaving(ctx, log, node, steps, state))
    && (!committed ==> Opened(log).None?)
  }

  lemma PublishFits(ctx: Ctx, initial: State, running: State, steps: nat, node: string, delta: Delta, log: Log)
    requires Lawful(ctx, initial, log) && Opened(log).None? && Hooked(log).None?
    requires node in ctx.graph.nodes && node in Given(log) && Given(log)[node] == running
    requires ctx.graph.nodes[node].call(running) == Delivers(delta)
    requires Rule(ctx, initial, log) == Answering(ctx, log, node, steps)
    ensures var f := PublishNode(ctx.gate, running, steps, node, delta, log);
            && (!f.Go? ==> Fits(ctx, initial, f))
            && (f.Go? ==> Rested(ctx, initial, f.log, node, steps + 1, f.value, false))
  {
    hide Lawful, Rule, Given, Published, Opened, Hooked, Commit, AfterCommit, Opening, Leaving, Concluded, Delivering;
    var c := CommitRequest(NodeCommit, [node], steps, None, Sha256(delta), None);
    var e := Observed(NodeEnd(node, steps + 1, Merge(running, delta), delta));
    CommitFits(ctx, initial, log, c, Emit(e), running, node, steps);
    var allowed := Commit(ctx.gate, log, c, running, node, steps);
    if allowed.Go? {
      AfterCommitFits(ctx, initial, allowed.log, c, Emit(e));
      var (settled, failure) := AfterCommit(ctx.gate, allowed.log, c);
      Step(ctx, initial, settled, e);
      Reads(initial, settled, e);
    }
  }

  /** What the scheduler makes of the answer of the node it called. */
  function Answer(ctx: Ctx, running: State, steps: nat, node: string, log: Log): Flow<State>
    requires node in ctx.graph.nodes
  {
    var answer := ctx.graph.nodes[node].call(running);
    var left := log + [Left(NodeSite(node, steps), answer.Delivers?)];
    match answer
    case NodeThrows(fault) =>
      if fault.Interrupt? then InterruptRun(left, running, node, steps, [], fault) else Raise(left, Raised(fault))
    case DeliversOther => Raise(left, NotADict(node))
    case Delivers(delta) => PublishNode(ctx.gate, running, steps, node, delta, left)
  }

  lemma NodeFits(ctx: Ctx, initial: State, state: State, steps: nat, node: string, last: string, log: Log)
    requires Lawful(ctx, initial, log) && Opened(log).None? && node in ctx.graph.nodes && node != END
    requires steps < ctx.graph.maxSteps && Rule(ctx, initial, log) == Arriving(ctx.graph, last, node, steps, state)
    ensures var f := RunNode(ctx, state, steps, node, log);
            && (!f.Go? ==> Fits(ctx, initial, f))
            && (f.Go? ==> Rested(ctx, initial, f.log, node, steps + 1, f.value, false))
  {
    hide Lawful, Rule, Given, Published, Opened, Hooked, Guard, PublishNode, Answering, Rested, Announcing, Concluded;
    VisitIs(state, [node]);
    var visited := Visit(state, [node]);
    if visited.Some? {
      var running := visited.value;
      var e := Observed(NodeStart(node, steps, running));
      Step(ctx, initial, log, e);
      Reads(initial, log, e);
      var started, q := log + [e], NodeSite(node, steps);
      GuardFits(ctx, initial, started, q, running, node, steps);
      var entered := Guard(ctx.gate, started, q, running, node, steps);
      if entered.Go? { AnswerFits(ctx, initial, running, steps, node, entered.log); }
    }
  }

  lemma VisitIs(s: State, names: seq<string>)
    ensures Visit(s, names) ==
              match Unpack(s[VISITED])
              case None => None
              case Some(before) => Some(s[VISITED := List(before + Strs(names))])
    ensures |names| == 1 ==> Strs(names) == [Str(names[0])]
  {
    match Unpack(s[VISITED])
    case None =>
    case Some(before) => assert Merge(s, map[VISITED := List(before + Strs(names))])
                             == s[VISITED := List(before + Strs(names))];
  }

  /** An interrupt pauses the run, for the branches it concerns. */
  lemma PauseFits<T>(ctx: Ctx, initial: State, log: Log, state: State, node: string, steps: nat,
                     branches: seq<string>, fault: Fault)
    requires fault.Interrupt? && Lawful(ctx, initial, log)
    requires Rule(ctx, initial, log) == Pausing(state, node, steps, branches, fault.prompt, fault.payload)
    ensures Fits(ctx, initial, InterruptRun<T>(log, state, node, steps, branches, fault))
  {
    hide Lawful, Rule, Noted;
    NotedIsAnnotated(state, "interrupted", PauseNote(node, fault.prompt, fault.payload));
    var f := InterruptRun<T>(log, state, node, steps, branches, fault);
    if f.Ended? { Step(ctx, initial, log, f.log[|log|]); }
  }

  /** A node that was entered is asked about the state it was given, and its answer is what happens. */
  lemma AnswerFits(ctx: Ctx, initial: State, running: State, steps: nat, node: string, entered: Log)
    requires Lawful(ctx, initial, entered) && Opened(entered).None? && node in ctx.graph.nodes
    requires node in Given(entered) && Given(entered)[node] == running
    requires Rule(ctx, initial, entered) == After(ctx, initial, entered, Entered(NodeSite(node, steps)))
    ensures var f := Answer(ctx, running, steps, node, entered);
            && (!f.Go? ==> Fits(ctx, initial, f))
            && (f.Go? ==> Rested(ctx, initial, f.log, node, steps + 1, f.value, false))
  {
    hide Lawful, Rule, Given, Published, Opened, Hooked, PublishNode, Rested, Pausing, InterruptRun, Stepping, Deciding;
    var answer := ctx.graph.nodes[node].call(running);
    var e := Left(NodeSite(node, steps), answer.Delivers?);
    Step(ctx, initial, entered, e);
    Reads(initial, entered, e);
    match answer
    case NodeThrows(fault) =>
      if fault.Interrupt? { PauseFits<State>(ctx, initial, entered + [e], running, node, steps, [], fault); }
    case DeliversOther =>
    case Delivers(delta) => PublishFits(ctx, initial, running, steps, node, delta, entered + [e]);
  }

  // ----- a region is opened -----

  /** Within the region, before anything of it is published. */
  ghost predicate Inner(ctx: Ctx, initial: State, region: Region, state: State, log: Log) {
    && Lawful(ctx, initial, log) && Hooked(log).None? && Published(initial, log) == state && Ends(log) == []
    && Current(ctx, log) == Some(region) && region.In(ctx.graph) && Ascending(region.branches)
  }

  lemma InnerIsOpened(ctx: Ctx, initial: State, region: Region, state: State, log: Log)
    requires Inner(ctx, initial, region, state, log)
    ensures Opened(log) == Some((region.source, region.steps)) && Published(initial, log) == state
  {
  }

  lemma InnerStep(ctx: Ctx, initial: State, region: Region, state: State, log: Log, e: Event)
    requires Inner(ctx, initial, region, state, log) && Proper(ctx, initial, log, e) && !e.Settled?
    requires e.Observed? ==> e.obs.NodeStart?
    ensures Inner(ctx, initial, region, state, log + [e])
    ensures Rule(ctx, initial, log + [e]) == After(ctx, initial, log + [e], e)
  {
    hide Lawful, Rule, Given, Published, Opened, Hooked, After, Current, Ascending;
    Step(ctx, initial, log, e);
    Reads(initial, log, e);
    CurrentStays(ctx, log, e);
  }

  /** `n` branches are announced, and none of them has done anything. */
  ghost predicate Announced(ctx: Ctx, initial: State, region: Region, state: State, log: Log, n: nat) {
    && Inner(ctx, initial, region, state, log) && Started(log) == n
    && Standings(ctx.graph, region, log) == FreshTasks(|region.branches|)
    && Rule(ctx, initial, log) == Announcing(ctx, initial, log)
  }

  lemma {:induction false} StartsFit(ctx: Ctx, initial: State, region: Region, state: State, log: Log, n: nat)
    requires Announced(ctx, initial, region, state, log, 0) && n <= |region.branches|
    ensures Announced(ctx, initial, region, state, log + StartEvents(region, n), n)
  {
    hide Inner, Standings, Rule;
    if n == 0 {
      assert log + StartEvents(region, 0) == log;
    } else {
      StartsFit(ctx, initial, region, state, log, n - 1);
      var begun := log + StartEvents(region, n - 1);
      assert log + StartEvents(region, n) == begun + [StartEvents(region, n)[n - 1]];
      NextStartFits(ctx, initial, region, state, begun, n - 1);
    }
  }

  lemma NextStartFits(ctx: Ctx, initial: State, region: Region, state: State, log: Log, n: nat)
    requires Announced(ctx, initial, region, state, log, n) && n < |region.branches|
    ensures var e := Observed(NodeStart(region.branches[n], region.steps, region.snapshot));
            Announced(ctx, initial, region, state, log + [e], n + 1)
  {
    hide Lawful, Rule, Standings, Opened, Published, Hooked, Stepping, Given;
    var e := Observed(NodeStart(region.branches[n], region.steps, region.snapshot));
    InnerStep(ctx, initial, region, state, log, e);
    StandingsStay(ctx.graph, region, log, e);
    assert (log + [e])[..|log|] == log;
    assert Opened(log + [e]).Some? by { InnerIsOpened(ctx, initial, region, state, log + [e]); }
  }

  /** The start of a region puts the log into it. */
  lemma StartIsRead(ctx: Ctx, log: Log, region: Region, target: string)
    requires region.source in ctx.graph.edges && ctx.graph.edges[region.source].FanOut?
    requires region.branches == ctx.graph.edges[region.source].branches && region.batch == ctx.token(region.steps)
    ensures var begun := log + [Observed(SuperstepStart(region.source, target, region.steps, region.branches,
                                                        region.snapshot))];
            && Current(ctx, begun) == Some(region) && Started(begun) == 0
            && Standings(ctx.graph, region, begun) == FreshTasks(|region.branches|)
  {
  }

  lemma OpenFits(ctx: Ctx, initial: State, source: string, edge: Edge, state: State, steps: nat, log: Log)
    requires Rested(ctx, initial, log, source, steps, state, false)
    requires source in ctx.graph.edges && ctx.graph.edges[source] == edge && edge.FanOut? && ValidFanOut(edge)
    ensures var f := OpenRegion(ctx, source, edge, state, steps, log);
            && (!f.Go? ==> Fits(ctx, initial, f))
            && (f.Go? ==>
                  f.value.source == source
                  && Announced(ctx, initial, f.value, state, f.log, |f.value.branches|))
  {
    hide Lawful, Rule, Given, Published, Opened, Hooked, StartEvents, MissingBranch, Current, Standings,
         Announcing, Ascending;
    VisitIs(state, edge.branches);
    var f := OpenRegion(ctx, source, edge, state, steps, log);
    if f.Go? {
      var region := f.value;
      var e := Observed(SuperstepStart(source, edge.next, steps, edge.branches, region.snapshot));
      Step(ctx, initial, log, e);
      Reads(initial, log, e);
      StartIsRead(ctx, log, region, edge.next);
      StartsFit(ctx, initial, region, state, log + [e], |region.branches|);
    }
  }

  // ----- branch tasks -----

  /** The chosen branch takes the step that is due, and stands where the log then says. */
  lemma StepFits(ctx: Ctx, initial: State, region: Region, state: State, tasks: seq<Task>, log: Log)
    requires Inner(ctx, initial, region, state, log) && tasks == Standings(ctx.graph, region, log)
    requires !AllFinished(tasks) && Rule(ctx, initial, log) == Stepping(ctx, initial, log)
    requires !ctx.gate.Durable() ==> forall t <- tasks :: !t.Admitted?
    ensures var i := Choose(tasks, ctx.pick(log));
            var (next, stepped) := StepTask(ctx, region, i, tasks[i], log);
            && Inner(ctx, initial, region, state, stepped)
            && Standings(ctx.graph, region, stepped) == tasks[i := next]
            && Rule(ctx, initial, stepped) == Stepping(ctx, initial, stepped)
            && (!ctx.gate.Durable() ==> !next.Admitted?)
  {
    hide Lawful, Rule, Standings, Opened, Published, Hooked, Closing, Ascending, Current, Concluded;
    var i := Choose(tasks, ctx.pick(log));
    assert tasks[i] in tasks;
    assert Current(ctx, log) == Some(region);
    assert Rule(ctx, initial, log) == Advancing(ctx, log, region, i, tasks[i]);
    AdvanceFits(ctx, initial, region, state, i, tasks[i], log);
  }

  /** After an event about a branch, its task stands where the event put it. */
  lemma BranchFits(ctx: Ctx, initial: State, region: Region, state: State, i: nat, log: Log, e: Event)
    requires i < |region.branches| && Inner(ctx, initial, region, state, log)
    requires Proper(ctx, initial, log, e) && RequestOf(e) == Some(region.Site(i))
    ensures Inner(ctx, initial, region, state, log + [e])
    ensures Standings(ctx.graph, region, log + [e])
         == Standings(ctx.graph, region, log)[i := StandsAfter(ctx.graph, region, i, e)]
    ensures Rule(ctx, initial, log + [e]) == if e.Marked? && e.hook.Completed? then Emit(Entered(region.Site(i)))
                                             else Stepping(ctx, initial, log + [e])
  {
    hide Proper, Rule, Standings, StandsAfter, Stepping, Lawful, Hooked, Published, Current, Ends, Given, Opened;
    InnerStep(ctx, initial, region, state, log, e);
    StandingsMove(ctx.graph, region, i, log, e);
  }

  /** Where a task stands after its branch was called is what its callable made of it. */
  lemma CalledStands(graph: Graph, region: Region, i: nat)
    requires i < |region.branches| && region.In(graph)
    ensures var delivered := graph.nodes[region.branches[i]].call(region.snapshot).Delivers?;
            && StandsAfter(graph, region, i, Left(region.Site(i), delivered)) == Finished(Call(graph, region, i))
            && Call(graph, region, i).Ok? == delivered
  {
  }

  lemma AdvanceFits(ctx: Ctx, initial: State, region: Region, state: State, i: nat, task: Task, log: Log)
    requires i < |region.branches| && Inner(ctx, initial, region, state, log) && !task.Finished?
    requires Rule(ctx, initial, log) == Advancing(ctx, log, region, i, task) && (task.Admitted? ==> ctx.gate.Durable())
    requires region.In(ctx.graph)
    ensures var (next, stepped) := StepTask(ctx, region, i, task, log);
            && Inner(ctx, initial, region, state, stepped)
            && Standings(ctx.graph, region, stepped) == Standings(ctx.graph, region, log)[i := next]
            && Rule(ctx, initial, stepped) == Stepping(ctx, initial, stepped)
            && (next.Admitted? ==> ctx.gate.Durable())
  {
    hide Inner, Rule, Standings, Stepping, Call;
    var site := region.Site(i);
    match task
    case Fresh =>
      BranchFits(ctx, initial, region, state, i, log,
                 if ctx.gate.Durable() then Decided(site, ctx.gate.dispatch(log, site)) else Entered(site));
    case Admitted =>
      var e := Marked(site, ctx.gate.start.value(log, site));
      BranchFits(ctx, initial, region, state, i, log, e);
      if e.hook.Completed? { BranchFits(ctx, initial, region, state, i, log + [e], Entered(site)); }
    case Running =>
      CalledStands(ctx.graph, region, i);
      BranchFits(ctx, initial, region, state, i, log, Left(site, Call(ctx.graph, region, i).Ok?));
  }

  lemma {:induction false} SettleFits(ctx: Ctx, initial: State, region: Region, state: State, tasks: seq<Task>,
                                      log: Log)
    requires Inner(ctx, initial, region, state, log) && tasks == Standings(ctx.graph, region, log)
    requires |tasks| == |region.branches| && region.In(ctx.graph)
    requires Rule(ctx, initial, log) == Stepping(ctx, initial, log)
    requires !ctx.gate.Durable() ==> forall t <- tasks :: !t.Admitted?
    ensures var (done, settled) := SettleAll(ctx, region, tasks, log);
            && Inner(ctx, initial, region, state, settled) && done == Standings(ctx.graph, region, settled)
            && Rule(ctx, initial, settled) == Stepping(ctx, initial, settled)
    decreases Work(tasks)
  {
    hide Inner, StepTask, Rule, Stepping, Standings;
    if !AllFinished(tasks) {
      var i := Choose(tasks, ctx.pick(log));
      var (task, stepped) := StepTask(ctx, region, i, tasks[i], log);
      WorkUpdate(tasks, i, task);
      StepFits(ctx, initial, region, state, tasks, log);
      SettleFits(ctx, initial, region, state, tasks[i := task], stepped);
    }
  }

  // ----- folding and committing -----

  /** All branches have settled, as `c` says, and nothing of the region is published. */
  ghost predicate Shut(ctx: Ctx, initial: State, c: Closed, items: seq<Contribution>, state: State, log: Log) {
    && Lawful(ctx, initial, log) && Hooked(log).None? && Published(initial, log) == state && Ends(log) == []
    && Opened(log) == Some((c.region.source, c.region.steps)) && Concluded(ctx, log) == Some(c)
    && c.Admitted() == Success(items)
  }

  lemma ShutStays(ctx: Ctx, initial: State, c: Closed, items: seq<Contribution>, state: State, log: Log, to: Log)
    requires Shut(ctx, initial, c, items, state, log) && Alike(ctx, initial, log, to)
    requires Lawful(ctx, initial, to) && Hooked(to).None? && Ends(to) == []
    ensures Shut(ctx, initial, c, items, state, to)
  {
  }

  lemma {:induction false} EndsFit(ctx: Ctx, initial: State, c: Closed, items: seq<Contribution>, committed: State,
                                   log: Log, n: nat)
    requires Lawful(ctx, initial, log) && Opened(log).Some? && n <= |items| && c.edge.FanOut?
    requires Concluded(ctx, log) == Some(c) && c.Admitted() == Success(items)
    requires Rule(ctx, initial, log) == Ending(ctx, c, items, 0) && Ends(log) == []
    requires committed == c.region.snapshot
                          + Folded(ctx.graph, c.region.snapshot, items, SortedKeys(Keys(items))).merged
    ensures var shown := log + EndEvents(items, c.Completed(), committed)[..n];
            && Lawful(ctx, initial, shown) && Rule(ctx, initial, shown) == Ending(ctx, c, items, n)
            && Opened(shown) == Opened(log) && Hooked(shown) == Hooked(log) && Concluded(ctx, shown) == Some(c)
            && |Ends(shown)| == n
  {
    hide Lawful, Rule, Opened, Hooked, Concluded, Folded, Ending, Ends, Admit;
    var events := EndEvents(items, c.Completed(), committed);
    if n == 0 {
      assert log + events[..0] == log;
    } else {
      EndsFit(ctx, initial, c, items, committed, log, n - 1);
      var shown := log + events[..n - 1];
      assert log + events[..n] == shown + [events[n - 1]];
      NextEndFits(ctx, initial, c, items, committed, shown, n - 1);
    }
  }

  lemma NextEndFits(ctx: Ctx, initial: State, c: Closed, items: seq<Contribution>, committed: State, log: Log, n: nat)
    requires Lawful(ctx, initial, log) && Opened(log).Some? && n < |items| && c.edge.FanOut?
    requires Concluded(ctx, log) == Some(c) && c.Admitted() == Success(items)
    requires Rule(ctx, initial, log) == Ending(ctx, c, items, n) && |Ends(log)| == n
    requires committed == c.region.snapshot
                          + Folded(ctx.graph, c.region.snapshot, items, SortedKeys(Keys(items))).merged
    ensures var e := EndEvents(items, c.Completed(), committed)[n];
            var shown := log + [e];
            && Lawful(ctx, initial, shown) && Rule(ctx, initial, shown) == Ending(ctx, c, items, n + 1)
            && Opened(shown) == Opened(log) && Hooked(shown) == Hooked(log) && Concluded(ctx, shown) == Some(c)
            && |Ends(shown)| == n + 1
  {
    hide Lawful, Rule, Given, Published, Opened, Hooked, Concluded, Folded, Ends, Keys, SortedKeys, Following,
         JoinLaws.CountOk, Admit;
    var e := EndEvents(items, c.Completed(), committed)[n];
    Step(ctx, initial, log, e);
    Reads(initial, log, e);
    EndIsRead(ctx, log, e);
  }

  lemma EndIsRead(ctx: Ctx, log: Log, e: Event)
    requires e.Observed? && e.obs.NodeEnd?
    ensures Concluded(ctx, log + [e]) == Concluded(ctx, log) && |Ends(log + [e])| == |Ends(log)| + 1
  {
    hide Current, Standings;
    CurrentStays(ctx, log, e);
    if Current(ctx, log).Some? { StandingsStay(ctx.graph, Current(ctx, log).value, log, e); }
    assert (log + [e])[..|log|] == log;
  }

  lemma CommitRegionFits(ctx: Ctx, initial: State, c: Closed, items: seq<Contribution>, state: State, log: Log)
    requires Shut(ctx, initial, c, items, state, log) && c.Valid()
    requires Rule(ctx, initial, log) == Sealing(ctx, log, c, items)
    ensures var fold := Folded(ctx.graph, c.region.snapshot, items, SortedKeys(Keys(items)));
            var f := CommitRegion(ctx, c.region, c.edge, state, c.Completed(), items, fold, log);
            && (!f.Go? ==> Fits(ctx, initial, f))
            && (f.Go? ==> Rested(ctx, initial, f.log, c.region.source, f.value.steps, f.value.state, true))
  {
    hide Lawful, Rule, Given, Published, Opened, Hooked, Commit, AfterCommit, EndEvents, Concluded, Folded, Delivering,
         Leaving, SortedKeys;
    var fold := Folded(ctx.graph, c.region.snapshot, items, SortedKeys(Keys(items)));
    var q, shown := RegionDelta(ctx, c, items), Ending(ctx, c, items, 0);
    CommitFits(ctx, initial, log, q, shown, state, c.region.source, c.region.steps);
    var allowed := Commit(ctx.gate, log, q, state, c.region.source, c.region.steps);
    if allowed.Go? {
      AfterCommitFits(ctx, initial, allowed.log, q, shown);
      var (settled, failure) := AfterCommit(ctx.gate, allowed.log, q);
      var committed := Merge(c.region.snapshot, fold.merged);
      EndsFit(ctx, initial, c, items, committed, settled, |items|);
      var events := EndEvents(items, c.Completed(), committed);
      assert events[..|items|] == events;
      var e := Observed(SuperstepCommit(c.region.source, c.edge.next, c.Completed(), Names(items), committed,
                                        fold.merged, fold.provenance));
      Step(ctx, initial, settled + events, e);
      Reads(initial, settled + events, e);
    }
  }

  /** Where the fold stands: `done` are folded, `keys` are still to come. */
  ghost predicate Midway(ctx: Ctx, initial: State, c: Closed, items: seq<Contribution>, state: State,
                         done: seq<string>, keys: seq<string>, log: Log)
  {
    && Shut(ctx, initial, c, items, state, log) && c.Valid() && done + keys == SortedKeys(Keys(items))
  }

  lemma {:induction false} BeyondIs(done: seq<string>, key: string, rest: seq<string>)
    requires key !in done
    ensures Beyond(done + [key] + rest, key) == rest
  {
    if done == [] {
      assert (done + [key] + rest)[1..] == rest;
    } else {
      assert (done + [key] + rest)[1..] == done[1..] + [key] + rest;
      BeyondIs(done[1..], key, rest);
    }
  }

  lemma KeyIsNew(done: seq<string>, keys: seq<string>)
    requires keys != [] && Ascending(done + keys)
    ensures keys[0] !in done && Beyond(done + keys, keys[0]) == keys[1..]
  {
    forall i | 0 <= i < |done| ensures done[i] != keys[0] { assert StrLt((done + keys)[i], (done + keys)[|done|]); }
    assert done + keys == done + [keys[0]] + keys[1..];
    BeyondIs(done, keys[0], keys[1..]);
  }

  /** A custom reducer that got control is asked. */
  lemma EnteredReduces(ctx: Ctx, initial: State, c: Closed, items: seq<Contribution>, state: State,
                       done: seq<string>, keys: seq<string>, log: Log)
    requires Midway(ctx, initial, c, items, state, done, keys, log) && keys != []
    ensures After(ctx, initial, log, Entered(c.Request(AtReducer, Names(items) + [keys[0]])))
         == Reducing(ctx, log, c, items, keys)
  {
    hide Lawful, Hooked, Published, Opened, Concluded, Reducing, Stepping, Beyond, Admit, Given;
    KeyIsNew(done, keys);
    assert [keys[0]] + keys[1..] == keys;
  }

  lemma EnterReducerFits(ctx: Ctx, initial: State, c: Closed, items: seq<Contribution>, state: State,
                         done: seq<string>, keys: seq<string>, log: Log)
    requires Midway(ctx, initial, c, items, state, done, keys, log) && keys != []
    requires Rule(ctx, initial, log) == Folding(ctx, log, c, items, keys)
    ensures var f := EnterReducer(ctx, c.region, state, c.Completed(), items, keys[0], log);
            && (!f.Go? ==> Fits(ctx, initial, f))
            && (f.Go? ==>
                  && Midway(ctx, initial, c, items, state, done, keys, f.log)
                  && Rule(ctx, initial, f.log) == Reducing(ctx, f.log, c, items, keys))
  {
    hide Lawful, Rule, Hooked, Published, Opened, Concluded, Reducing, Guard, After, Alike, Keys, SortedKeys, Writes,
         Given, NamesCallable, Ends;
    var q := c.Request(AtReducer, Names(items) + [keys[0]]);
    assert q == c.region.Request(AtReducer, Names(items) + [keys[0]], c.Completed());
    var f := EnterReducer(ctx, c.region, state, c.Completed(), items, keys[0], log);
    if ReducerFor(ctx.graph, keys[0]).Custom? && AllCopyable(Writes(items, keys[0])) {
      if ctx.gate.Durable() {
        assert NamesCallable(ctx, log, q) by { FieldIsCallable(ctx, initial, c, items, state, log, keys[0]); }
        GuardFits(ctx, initial, log, q, state, c.region.source, c.region.steps);
      } else {
        EnterFits(ctx, initial, log, q);
      }
      if f.Go? {
        ShutStays(ctx, initial, c, items, state, log, f.log);
        EnteredReduces(ctx, initial, c, items, state, done, keys, f.log);
      }
    }
  }

  lemma EnterFits(ctx: Ctx, initial: State, log: Log, q: DispatchRequest)
    requires Lawful(ctx, initial, log) && Rule(ctx, initial, log) == Emit(Entered(q)) && !OfBranch(q)
    ensures var entered := log + [Entered(q)];
            && Lawful(ctx, initial, entered) && Alike(ctx, initial, log, entered) && Hooked(entered).None?
            && Ends(entered) == []
            && Rule(ctx, initial, entered) == After(ctx, initial, entered, Entered(q))
  {
    hide Lawful, Rule, After, Alike, Given, Published, Opened, Hooked;
    Step(ctx, initial, log, Entered(q));
    Reads(initial, log, Entered(q));
    Quietly(ctx, initial, log, Entered(q));
    assert (log + [Entered(q)])[|log|] == Entered(q);
  }

  lemma FieldIsCallable(ctx: Ctx, initial: State, c: Closed, items: seq<Contribution>, state: State, log: Log,
                        key: string)
    requires Shut(ctx, initial, c, items, state, log)
    ensures NamesCallable(ctx, log, c.Request(AtReducer, Names(items) + [key]))
  {
    hide Lawful, Hooked, Published, Opened, Concluded, Ends;
    assert |Names(items) + [key]| == |Names(items)| + 1;
  }

  lemma FoldKeyFits(ctx: Ctx, initial: State, c: Closed, items: seq<Contribution>, state: State,
                    done: seq<string>, keys: seq<string>, log: Log)
    requires Midway(ctx, initial, c, items, state, done, keys, log) && keys != [] && keys[0] in Keys(items)
    requires Rule(ctx, initial, log) == Folding(ctx, log, c, items, keys)
    ensures var f := FoldKey(ctx, c.region, state, c.Completed(), items, keys[0],
                             Folded(ctx.graph, c.region.snapshot, items, done), log);
            && (!f.Go? ==> Fits(ctx, initial, f))
            && (f.Go? ==>
                  && Midway(ctx, initial, c, items, state, done + [keys[0]], keys[1..], f.log)
                  && Rule(ctx, initial, f.log) == Folding(ctx, f.log, c, items, keys[1..])
                  && f.value == Folded(ctx.graph, c.region.snapshot, items, done + [keys[0]]))
  {
    hide Lawful, Rule, Shut, EnterReducer, Folding, ReduceField, Keys, SortedKeys;
    EnterReducerFits(ctx, initial, c, items, state, done, keys, log);
    WritesExist(items, keys[0]);
    assert done + [keys[0]] + keys[1..] == done + keys;
    assert (done + [keys[0]])[..|done|] == done;
    var entered := EnterReducer(ctx, c.region, state, c.Completed(), items, keys[0], log);
    if entered.Go? { ShutIsLawful(ctx, initial, c, items, state, entered.log); }
  }

  lemma ShutIsLawful(ctx: Ctx, initial: State, c: Closed, items: seq<Contribution>, state: State, log: Log)
    requires Shut(ctx, initial, c, items, state, log)
    ensures Lawful(ctx, initial, log)
  {
  }

  lemma {:induction false} FoldFits(ctx: Ctx, initial: State, c: Closed, items: seq<Contribution>, state: State,
                                    done: seq<string>, keys: seq<string>, log: Log)
    requires Midway(ctx, initial, c, items, state, done, keys, log) && forall k <- keys :: k in Keys(items)
    requires Rule(ctx, initial, log) == Folding(ctx, log, c, items, keys)
    ensures var f := FoldKeys(ctx, c.region, state, c.Completed(), items, keys,
                              Folded(ctx.graph, c.region.snapshot, items, done), log);
            && (!f.Go? ==> Fits(ctx, initial, f))
            && (f.Go? ==>
                  && Shut(ctx, initial, c, items, state, f.log)
                  && Rule(ctx, initial, f.log) == Sealing(ctx, f.log, c, items)
                  && f.value == Folded(ctx.graph, c.region.snapshot, items, SortedKeys(Keys(items))))
    decreases |keys|
  {
    hide Rule, Shut, FoldKey, Sealing, Folded, Lawful, Keys, SortedKeys;
    if keys == [] {
      assert done + keys == done;
    } else {
      assert keys[0] in keys;
      FoldKeyFits(ctx, initial, c, items, state, done, keys, log);
      var one := FoldKey(ctx, c.region, state, c.Completed(), items, keys[0],
                         Folded(ctx.graph, c.region.snapshot, items, done), log);
      if one.Go? { FoldFits(ctx, initial, c, items, state, done + [keys[0]], keys[1..], one.log); }
    }
  }

  lemma FoldRegionFits(ctx: Ctx, initial: State, c: Closed, items: seq<Contribution>, state: State, log: Log)
    requires Shut(ctx, initial, c, items, state, log) && c.Valid()
    requires Rule(ctx, initial, log) == Admitting(ctx, log, c)
    ensures var f := FoldRegion(ctx, c.region, c.edge, state, c.Completed(), items, log);
            && (!f.Go? ==> Fits(ctx, initial, f))
            && (f.Go? ==> Rested(ctx, initial, f.log, c.region.source, f.value.steps, f.value.state, true))
  {
    hide Lawful, Rule, Hooked, Published, Opened, Concluded, Permit, FoldKeys, CommitRegion, Rested, Folding, After,
         Alike, Given, Folded, Sealing;
    var q := c.region.Request(AtReducer, Names(items), c.Completed());
    assert q == c.Request(AtReducer, Names(items));
    var keys := SortedKeys(Keys(items));
    PermitFits(ctx, initial, log, q, state, c.region.source, c.region.steps);
    var allowed := Permit(ctx.gate, log, q, state, c.region.source, c.region.steps);
    if allowed.Go? {
      if ctx.gate.Gate? {
        assert allowed.log[|log|] == Decided(q, Says(Allow));
        ShutStays(ctx, initial, c, items, state, log, allowed.log);
        AllowedFolds(ctx, initial, c, items, state, allowed.log);
      }
      NoneFolded(ctx.graph, c.region.snapshot, items);
      assert [] + keys == keys;
      FoldFits(ctx, initial, c, items, state, [], keys, allowed.log);
      var folded := FoldKeys(ctx, c.region, state, c.Completed(), items, keys, Fold(map[], map[]), allowed.log);
      if folded.Go? { CommitRegionFits(ctx, initial, c, items, state, folded.log); }
    }
  }

  lemma NoneFolded(graph: Graph, snapshot: State, items: seq<Contribution>)
    ensures Folded(graph, snapshot, items, []) == Fold(map[], map[])
  {
  }

  lemma AllowedFolds(ctx: Ctx, initial: State, c: Closed, items: seq<Contribution>, state: State, log: Log)
    requires Shut(ctx, initial, c, items, state, log) && c.Valid()
    ensures After(ctx, initial, log, Decided(c.Request(AtReducer, Names(items)), Says(Allow)))
         == Folding(ctx, log, c, items, SortedKeys(Keys(items)))
  {
    hide Lawful, Hooked, Published, Opened, Concluded, Folding, Ends, Admit, Keys, SortedKeys, Given, Stepping, Acting;
  }

  // ----- joining and closing -----

  /** All branches have settled, as `c` says, and the region is being closed. */
  ghost predicate Settling(ctx: Ctx, initial: State, c: Closed, state: State, log: Log) {
    && Lawful(ctx, initial, log) && Hooked(log).None? && Published(initial, log) == state && Ends(log) == []
    && Opened(log) == Some((c.region.source, c.region.steps)) && Concluded(ctx, log) == Some(c)
  }

  lemma EnteredAdmits(ctx: Ctx, initial: State, c: Closed, state: State, log: Log)
    requires Settling(ctx, initial, c, state, log) && c.Valid()
    ensures After(ctx, initial, log, Entered(c.Request(AtJoin, c.region.branches))) == Admitting(ctx, log, c)
  {
    hide Lawful, Hooked, Published, Opened, Concluded, Admitting, Ends;
  }

  lemma JoinFits(ctx: Ctx, initial: State, c: Closed, state: State, log: Log)
    requires Settling(ctx, initial, c, state, log) && c.Valid()
    requires Rule(ctx, initial, log) ==
             if c.edge.join.CustomJoin? then Asking(ctx.gate, log, c.Request(AtJoin, c.region.branches))
             else Admitting(ctx, log, c)
    ensures var f := JoinRegion(ctx, c.region, c.edge, state, c.settled, log);
            && (!f.Go? ==> Fits(ctx, initial, f))
            && (f.Go? ==> Rested(ctx, initial, f.log, c.region.source, f.value.steps, f.value.state, true))
  {
    hide Lawful, Rule, Hooked, Published, Opened, Concluded, Guard, Admit, FoldRegion, Rested, After, Alike, Given,
         Ends, Successes, Asking, JoinLaws.CountOk;
    var region := c.region;
    JoinLaws.SuccessCount(region.branches, c.settled);
    var q := region.Request(AtJoin, region.branches, c.Completed());
    assert q == c.Request(AtJoin, region.branches);
    if c.edge.join.CustomJoin? { GuardFits(ctx, initial, log, q, state, region.source, region.steps); }
    var joined := GuardJoin(ctx, region, c.edge.join, state, c.Completed(), log);
    if joined.Go? {
      if c.edge.join.CustomJoin? {
        SettlingStays(ctx, initial, c, state, log, joined.log);
        EnteredAdmits(ctx, initial, c, state, joined.log);
      }
      var r := Admit(region.source, c.edge.join, region.branches, c.settled);
      if r.Success? { FoldRegionFits(ctx, initial, c, r.value, state, joined.log); }
    }
  }

  lemma SettlingStays(ctx: Ctx, initial: State, c: Closed, state: State, log: Log, to: Log)
    requires Settling(ctx, initial, c, state, log) && Alike(ctx, initial, log, to)
    requires Lawful(ctx, initial, to) && Hooked(to).None? && Ends(to) == []
    ensures Settling(ctx, initial, c, state, to)
  {
  }

  /** What the source looks for is what comes first of each kind. */
  lemma CloseIs(ctx: Ctx, c: Closed, state: State, log: Log)
    requires c.Valid()
    ensures var (settled, region) := (c.settled, c.region);
            var f := CloseRegion(ctx, region, c.edge, state, settled, log);
            var refused := Earliest(settled, JoinLaws.IsNotAdmitted);
            var starts := Earliest(settled, JoinLaws.IsRefusedStart);
            var stopped, paused := Earliest(settled, JoinLaws.IsBranchStopped), Earliest(settled, JoinLaws.IsPaused);
            if refused < |settled| then f == Raise(log, settled[refused].error)
            else if starts < |settled| then f == Raise(log, settled[starts].error)
            else if Earliest(settled, JoinLaws.IsNotStarted) < |settled| then
              f == Raise(log, StartsFailed(region.source, StartErrors(settled)))
            else if stopped < |settled| then
              f == Halt(log, state, region.source, region.steps, settled[stopped].reason)
            else if paused < |settled| then
              f == InterruptRun(log, region.snapshot, region.branches[paused], region.steps, region.branches,
                                settled[paused].error.fault)
            else f == JoinRegion(ctx, region, c.edge, state, settled, log)
  {
    hide Halt, InterruptRun, JoinRegion, StartErrors, GateRefusals, AdmissionErrors, StopReasons, FirstInterrupt,
         CloseRegion;
    var settled := c.settled;
    var refused, starts := Earliest(settled, JoinLaws.IsNotAdmitted), Earliest(settled, JoinLaws.IsRefusedStart);
    var failed := Earliest(settled, JoinLaws.IsNotStarted);
    var stopped, paused := Earliest(settled, JoinLaws.IsBranchStopped), Earliest(settled, JoinLaws.IsPaused);
    JoinLaws.FailurePrecedence(ctx, c.region, c.edge, state, settled, log, refused);
    JoinLaws.FailurePrecedence(ctx, c.region, c.edge, state, settled, log, starts);
    JoinLaws.FailurePrecedence(ctx, c.region, c.edge, state, settled, log, stopped);
    JoinLaws.FailurePrecedence(ctx, c.region, c.edge, state, settled, log, paused);
    if refused == |settled| && starts == |settled| && failed < |settled| {
      StartsFailTogether(ctx, c, state, log, failed);
    }
  }

  lemma StartsFailTogether(ctx: Ctx, c: Closed, state: State, log: Log, i: nat)
    requires c.Valid() && JoinLaws.FirstAt(c.settled, JoinLaws.IsNotStarted, i)
    requires JoinLaws.NoneAt(c.settled, JoinLaws.IsNotAdmitted) && JoinLaws.NoneAt(c.settled, JoinLaws.IsRefusedStart)
    ensures CloseRegion(ctx, c.region, c.edge, state, c.settled, log)
         == Raise(log, StartsFailed(c.region.source, StartErrors(c.settled)))
  {
    hide Halt, InterruptRun, JoinRegion, StartErrors, GateRefusals, AdmissionErrors;
    JoinLaws.NoAdmissionError(c.settled);
    JoinLaws.TogetherRaised(c.settled, i);
  }

  lemma CloseFits(ctx: Ctx, initial: State, c: Closed, state: State, log: Log)
    requires Settling(ctx, initial, c, state, log) && c.Valid()
    requires Rule(ctx, initial, log) == Closing(ctx, initial, log, c)
    ensures var f := CloseRegion(ctx, c.region, c.edge, state, c.settled, log);
            && (!f.Go? ==> Fits(ctx, initial, f))
            && (f.Go? ==> Rested(ctx, initial, f.log, c.region.source, f.value.steps, f.value.state, true))
  {
    hide Lawful, Rule, Hooked, Published, Opened, Concluded, JoinRegion, Halt, InterruptRun, Rested, Pausing, Halting,
         Admitting, Asking, Earliest, CloseRegion, StartErrors, Ends;
    CloseIs(ctx, c, state, log);
    var settled, region := c.settled, c.region;
    var stopped, paused := Earliest(settled, JoinLaws.IsBranchStopped), Earliest(settled, JoinLaws.IsPaused);
    if Earliest(settled, JoinLaws.IsNotAdmitted) == |settled| && Earliest(settled, JoinLaws.IsNotStarted) == |settled|
       && Earliest(settled, JoinLaws.IsRefusedStart) == |settled| {
      if stopped < |settled| {
        HaltFits<Progress>(ctx, initial, log, state, region.source, region.steps, settled[stopped].reason);
      } else if paused < |settled| {
        PauseFits<Progress>(ctx, initial, log, region.snapshot, region.branches[paused], region.steps,
                            region.branches, settled[paused].error.fault);
      } else {
        JoinFits(ctx, initial, c, state, log);
      }
    }
  }

  lemma RegionFits(ctx: Ctx, initial: State, source: string, edge: Edge, state: State, steps: nat, log: Log)
    requires Rested(ctx, initial, log, source, steps, state, false)
    requires source in ctx.graph.edges && ctx.graph.edges[source] == edge && edge.FanOut? && ValidFanOut(edge)
    ensures var f := RunRegion(ctx, source, edge, state, steps, log);
            && (!f.Go? ==> Fits(ctx, initial, f))
            && (f.Go? ==> Rested(ctx, initial, f.log, source, f.value.steps, f.value.state, true))
  {
    hide Lawful, Rule, Given, Published, Opened, Hooked, OpenRegion, Permit, SettleAll, CloseRegion, Rested,
         Standings, Announced, Inner, Outcomes;
    OpenFits(ctx, initial, source, edge, state, steps, log);
    var begun := OpenRegion(ctx, source, edge, state, steps, log);
    if begun.Go? {
      var region := begun.value;
      var q := region.Request(AtFanOut, region.branches, steps);
      BatchFits(ctx, initial, region, state, begun.log);
      var allowed := Permit(ctx.gate, begun.log, q, state, source, steps);
      if allowed.Go? {
        var tasks := FreshTasks(|region.branches|);
        SettleFits(ctx, initial, region, state, tasks, allowed.log);
        var (done, settled) := SettleAll(ctx, region, tasks, allowed.log);
        var c := Closed(region, edge, Outcomes(done));
        SettledIsClosed(ctx, initial, region, edge, state, done, settled);
        CloseFits(ctx, initial, c, state, settled);
      }
    }
  }

  /** The decision on the whole batch, after which branches may start. */
  lemma BatchFits(ctx: Ctx, initial: State, region: Region, state: State, log: Log)
    requires Announced(ctx, initial, region, state, log, |region.branches|)
    ensures var q := region.Request(AtFanOut, region.branches, region.steps);
            var f := Permit(ctx.gate, log, q, state, region.source, region.steps);
            && (!f.Go? ==> Fits(ctx, initial, f))
            && (f.Go? ==>
                  && Inner(ctx, initial, region, state, f.log)
                  && Standings(ctx.graph, region, f.log) == FreshTasks(|region.branches|)
                  && Rule(ctx, initial, f.log) == Stepping(ctx, initial, f.log))
  {
    hide Lawful, Rule, Given, Published, Opened, Hooked, Permit, Standings, Stepping, Current, Alike, Ascending,
         Started;
    var q := region.Request(AtFanOut, region.branches, region.steps);
    InnerIsOpened(ctx, initial, region, state, log);
    PermitFits(ctx, initial, log, q, state, region.source, region.steps);
    if ctx.gate.Gate? {
      CurrentStays(ctx, log, Decided(q, Says(Allow)));
      StandingsStay(ctx.graph, region, log, Decided(q, Says(Allow)));
      Reads(initial, log, Decided(q, Says(Allow)));
    }
  }

  lemma SettledIsClosed(ctx: Ctx, initial: State, region: Region, edge: Edge, state: State, done: seq<Task>, log: Log)
    requires Inner(ctx, initial, region, state, log) && done == Standings(ctx.graph, region, log) && AllFinished(done)
    requires Rule(ctx, initial, log) == Stepping(ctx, initial, log)
    requires region.source in ctx.graph.edges && ctx.graph.edges[region.source] == edge && edge.FanOut?
    ensures var c := Closed(region, edge, Outcomes(done));
            && c.Valid() && Settling(ctx, initial, c, state, log)
            && Rule(ctx, initial, log) == Closing(ctx, initial, log, c)
  {
    hide Lawful, Rule, Published, Hooked, Standings, Closing, Current;
    InnerIsOpened(ctx, initial, region, state, log);
  }

  // ----- the run -----

  lemma RouteFits(ctx: Ctx, initial: State, source: string, edge: Edge, state: State, steps: nat, log: Log)
    requires Lawful(ctx, initial, log) && Published(initial, log) == state
    requires Rule(ctx, initial, log) == Leaving(ctx, log, source, steps, state)
    requires var own := ctx.graph.EdgeFrom(source); edge == if own.FanOut? then Static(own.next) else own
    ensures var f := Route(ctx, source, edge, state, steps, log);
            && (!f.Go? ==> Fits(ctx, initial, f))
            && (f.Go? ==>
                  && Lawful(ctx, initial, f.log) && Opened(f.log).None? && Published(initial, f.log) == state
                  && Rule(ctx, initial, f.log) == Arriving(ctx.graph, source, f.value, steps, state)
                  && (f.value == END || f.value in ctx.graph.nodes))
  {
    hide Lawful, Rule, Given, Published, Opened, Hooked, Guard, Arriving;
    var site := RouterSite(source, steps);
    if edge.Conditional? { GuardFits(ctx, initial, log, site, state, source, steps); }
    var entered := if edge.Conditional? then Guard(ctx.gate, log, site, state, source, steps) else Go(log, ());
    var r := Resolve(ctx.graph, edge, state);
    if entered.Go? && r.Success? {
      var e := Observed(EdgeSelected(source, r.value, steps, state));
      Step(ctx, initial, entered.log, e);
      Reads(initial, entered.log, e);
    }
  }

  lemma EdgeIsValid(graph: Graph, source: string)
    requires graph.Valid() && source in graph.edges && graph.edges[source].FanOut?
    ensures ValidFanOut(graph.edges[source])
  {
  }

  lemma TurnFits(ctx: Ctx, initial: State, state: State, steps: nat, node: string, last: string, log: Log)
    requires ctx.graph.Valid() && Lawful(ctx, initial, log) && Opened(log).None?
    requires node in ctx.graph.nodes && node != END
    requires steps < ctx.graph.maxSteps && Rule(ctx, initial, log) == Arriving(ctx.graph, last, node, steps, state)
    ensures var f := TakeTurn(ctx, state, steps, node, log);
            && (!f.Go? ==> Fits(ctx, initial, f))
            && (f.Go? ==>
                  && Lawful(ctx, initial, f.log) && Opened(f.log).None?
                  && Rule(ctx, initial, f.log) ==
                       Arriving(ctx.graph, node, f.value.target, f.value.steps, f.value.state)
                  && (f.value.target == END || f.value.target in ctx.graph.nodes))
  {
    hide Lawful, Rule, Published, Opened, RunNode, RunRegion, Route, Arriving, Leaving, Opening, Graph.Valid;
    NodeFits(ctx, initial, state, steps, node, last, log);
    var ended := RunNode(ctx, state, steps, node, log);
    if ended.Go? {
      var edge := ctx.graph.EdgeFrom(node);
      if edge.FanOut? {
        EdgeIsValid(ctx.graph, node);
        RegionFits(ctx, initial, node, edge, ended.value, steps + 1, ended.log);
      }
      var committed := if edge.FanOut? then RunRegion(ctx, node, edge, ended.value, steps + 1, ended.log)
                       else Go(ended.log, Progress(ended.value, steps + 1));
      if committed.Go? {
        RouteFits(ctx, initial, node, if edge.FanOut? then Static(edge.next) else edge, committed.value.state,
                  committed.value.steps, committed.log);
      }
    }
  }

  lemma {:induction false} LoopFits(ctx: Ctx, initial: State, state: State, steps: nat, node: string, last: string,
                                    log: Log)
    requires ctx.graph.Valid() && Lawful(ctx, initial, log) && Opened(log).None?
    requires node == END || node in ctx.graph.nodes
    requires Rule(ctx, initial, log) == Arriving(ctx.graph, last, node, steps, state)
    ensures Fits(ctx, initial, Loop(ctx, state, steps, node, last, log))
    decreases ctx.graph.maxSteps - steps
  {
    hide Lawful, Rule, Published, Opened, TakeTurn, Loop;
    LoopUnfolds(ctx, state, steps, node, last, log);
    if node == END {
      var e := Observed(Done(steps, Merge(state, map[STATUS := Str("done")])));
      assert Merge(state, map[STATUS := Str("done")]) == state[STATUS := Str("done")];
      Step(ctx, initial, log, e);
    } else if steps < ctx.graph.maxSteps {
      TurnFits(ctx, initial, state, steps, node, last, log);
      var f := TakeTurn(ctx, state, steps, node, log);
      if f.Go? { LoopFits(ctx, initial, f.value.state, f.value.steps, f.value.target, node, f.log); }
    }
  }

  /** Every run does exactly what is due: each of its events, and how it ends. */
  lemma RunFits(ctx: Ctx, initial: State)
    requires ctx.graph.Valid()
    ensures Fits(ctx, initial, Run(ctx, initial))
  {
    hide Run, Loop, Route, Arriving, Leaving, Guard;
    RunUnfolds(ctx, initial);
    var edge := ctx.graph.EdgeFrom(START);
    var selected := Route(ctx, START, edge, initial, 0, []);
    if edge.FanOut? {
      RegionIsNoEntry(ctx, initial);
    } else {
      RouteFits(ctx, initial, START, edge, initial, 0, []);
      if selected.Go? { LoopFits(ctx, initial, initial, 0, selected.value, START, selected.log); }
    }
  }

  lemma RegionIsNoEntry(ctx: Ctx, initial: State)
    requires ctx.graph.EdgeFrom(START).FanOut?
    ensures Route(ctx, START, ctx.graph.EdgeFrom(START), initial, 0, []) == Raise([], FanOutAsRoute)
  {
  }

  lemma {:induction false} LawfulAt(ctx: Ctx, initial: State, log: Log, i: nat)
    requires Lawful(ctx, initial, log) && i <= |log|
    ensures Lawful(ctx, initial, log[..i]) && (i < |log| ==> Proper(ctx, initial, log[..i], log[i]))
  {
    hide Proper;
    if i < |log| - 1 {
      LawfulAt(ctx, initial, log[..|log| - 1], i);
      assert log[..|log| - 1][..i] == log[..i];
    } else if i == |log| {
      assert log[..i] == log;
    }
  }

  /** The rule determines the run: what it allows are the beginnings of the run, and only those. */
  lemma {:induction false} LawfulIsARunSoFar(ctx: Ctx, initial: State, log: Log)
    requires ctx.graph.Valid()
    ensures Lawful(ctx, initial, log) <==> log <= Run(ctx, initial).log
  {
    hide Run, Rule, Graph.Valid;
    RunFits(ctx, initial);
    var all := Run(ctx, initial).log;
    if log <= all {
      LawfulAt(ctx, initial, all, |log|);
      assert all[..|log|] == log;
    }
    if Lawful(ctx, initial, log) && log != [] {
      var n := |log| - 1;
      var front := log[..n];
      LawfulIsARunSoFar(ctx, initial, front);
      assert all[..n] == front;
      assert |front| == |all| ==> front == all;
      if n < |all| {
        LawfulAt(ctx, initial, all, n);
        assert log == front + [log[n]];
      }
    }
  }
}
