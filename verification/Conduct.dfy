/** What a run must do next. At every moment the event that follows is determined by what
    happened so far and by the event loop's choice, and so is every way the run can end:
    verdicts are carried out, callables are asked about the current state, and what they
    answer is what happens. */
module Conduct {
  import opened Values
  import opened Ordering
  import opened Protocol
  import opened Reducers
  import opened Topology
  import opened Engine
  import opened Origins
  import JoinLaws

  // ----- what a log tells -----

  /** The state published last. */
  function Published(initial: State, log: Log): State {
    if log == [] then initial else
    match log[|log| - 1]
    case Observed(NodeEnd(_, _, state, _)) => state
    case Observed(SuperstepCommit(_, _, _, _, state, _, _)) => state
    case _ => Published(initial, log[..|log| - 1])
  }

  /** A region was opened after the last edge was selected; where, and at which step. */
  function Opened(log: Log): Option<(string, nat)> {
    if log == [] then None else
    match log[|log| - 1]
    case Observed(SuperstepStart(node, _, steps, _, _)) => Some((node, steps))
    case Observed(EdgeSelected(_, _, _, _)) => None
    case _ => Opened(log[..|log| - 1])
  }

  /** The settlement hook of the publication the log ends in, if it has one. */
  function Hooked(log: Log): Option<Hook> {
    if log == [] then None else
    match log[|log| - 1]
    case Observed(NodeEnd(_, _, _, _)) => Hooked(log[..|log| - 1])
    case Observed(SuperstepCommit(_, _, _, _, _, _, _)) => Hooked(log[..|log| - 1])
    case Settled(_, hook) => Some(hook)
    case _ => None
  }

  /** The decision asks for one branch of a region. */
  predicate OfBranch(q: DispatchRequest) { q.boundary.AtNode? && q.source.Some? }

  predicate OfNode(q: DispatchRequest) { q.boundary.AtNode? && q.source.None? && |q.nodes| == 1 }

  /** The request an event is about. */
  function RequestOf(e: Event): Option<DispatchRequest> {
    match e
    case Decided(q, _) => Some(q)
    case Marked(q, _) => Some(q)
    case Entered(q) => Some(q)
    case Left(q, _) => Some(q)
    case _ => None
  }

  /** The error an answer is raised as, if it is. */
  function Rejection(answer: Answer, nodes: seq<string>): Option<Error> {
    match answer
    case Says(Refuse(reason)) => Some(Refused(reason, nodes))
    case Says(_) => None
    case Garbage => Some(NotADecision)
    case Throws(fault) => Some(Raised(fault))
  }

  /** `base` with `status` set and `extra` written over its metadata. */
  function Noted(base: State, status: string, extra: map<string, Value>): State
    requires base[METADATA].Dict?
  {
    base[STATUS := Str(status)][METADATA := Dict(base[METADATA].entries + extra)]
  }

  function StopNote(node: string, reason: string): map<string, Value> {
    map["stop_node" := Str(node), "stop_reason" := Str(reason)]
  }

  function PauseNote(node: string, prompt: Value, payload: Value): map<string, Value> {
    map["interrupt_node" := Str(node), "interrupt_prompt" := prompt, "interrupt_payload" := payload]
  }

  // ----- what a log tells of a region -----

  /** The region the log is in: its branches run on the snapshot its start showed. */
  function Current(ctx: Ctx, log: Log): Option<Region> {
    match Opened(log)
    case None => None
    case Some((node, steps)) =>
      if node in ctx.graph.edges && ctx.graph.edges[node].FanOut? && Snapshot(log).Some? then
        Some(Region(node, ctx.graph.edges[node].branches, steps, ctx.token(steps), Snapshot(log).value))
      else None
  }

  /** How many starts the log ends in. */
  function Started(log: Log): nat {
    if log != [] && log[|log| - 1].Observed? && log[|log| - 1].obs.NodeStart? then 1 + Started(log[..|log| - 1]) else 0
  }

  /** Where the task of branch `i` is after `e`, which concerns it. */
  function StandsAfter(graph: Graph, region: Region, i: nat, e: Event): Task
    requires i < |region.branches|
  {
    var b := region.branches[i];
    match e
    case Decided(_, Says(Stop(reason))) => Finished(BranchStopped(reason))
    case Decided(_, answer) =>
      if Rejection(answer, [b]).Some? then Finished(NotAdmitted(Rejection(answer, [b]).value)) else Admitted
    case Marked(_, hook) => if HookError(hook).Some? then Finished(NotStarted(HookError(hook).value)) else Admitted
    case Entered(_) => Running
    case _ =>
      if b !in graph.nodes then Fresh else
      match graph.nodes[b].call(region.snapshot)
      case Delivers(delta) => Finished(Ok(delta))
      case DeliversOther => Finished(Failed(NotADict(b)))
      case NodeThrows(fault) => Finished(Failed(Raised(fault)))
  }

  /** Where the task of branch `i` is: what the last event that concerns it made of it. */
  function Standing(graph: Graph, region: Region, i: nat, log: Log): Task
    requires i < |region.branches|
  {
    if log == [] then Fresh else
    var e := log[|log| - 1];
    if e.Observed? && e.obs.SuperstepStart? then Fresh
    else if RequestOf(e) == Some(region.Site(i)) then StandsAfter(graph, region, i, e)
    else Standing(graph, region, i, log[..|log| - 1])
  }

  function Standings(graph: Graph, region: Region, log: Log): (tasks: seq<Task>)
    ensures |tasks| == |region.branches|
  {
    seq(|region.branches|, i requires 0 <= i < |region.branches| => Standing(graph, region, i, log))
  }

  /** A region all of whose branches have settled. */
  datatype Closed = Closed(region: Region, edge: Edge, settled: seq<Settlement>) {
    predicate Valid() { edge.FanOut? && |settled| == |region.branches| }

    function Completed(): nat { region.steps + JoinLaws.CountOk(settled) }

    function Admitted(): Result<seq<Contribution>, Error>
      requires Valid()
    {
      Admit(region.source, edge.join, region.branches, settled)
    }

    function Request(boundary: Boundary, nodes: seq<string>): DispatchRequest {
      DispatchRequest(boundary, nodes, Completed(), Some(region.source), Some(region.batch))
    }
  }

  function Concluded(ctx: Ctx, log: Log): (c: Option<Closed>)
    ensures c.Some? ==> c.value.Valid()
  {
    match Current(ctx, log)
    case None => None
    case Some(region) =>
      var tasks := Standings(ctx.graph, region, log);
      if AllFinished(tasks) then Some(Closed(region, ctx.graph.edges[region.source], Outcomes(tasks))) else None
  }

  /** The first outcome of this kind; there is none if it is the number of outcomes. */
  function Earliest(settled: seq<Settlement>, kind: Settlement -> bool): (i: nat)
    ensures i <= |settled|
    ensures i < |settled| ==> JoinLaws.FirstAt(settled, kind, i)
    ensures i == |settled| ==> JoinLaws.NoneAt(settled, kind)
  {
    if settled == [] || kind(settled[0]) then 0
    else
      assert settled == [settled[0]] + settled[1..];
      1 + Earliest(settled[1..], kind)
  }

  /** What the reducer of a field makes of what the branches wrote to it. */
  function Reduced(graph: Graph, snapshot: State, items: seq<Contribution>, key: string): Option<Result<Value, Error>> {
    var ws := Writes(items, key);
    if ws == [] then None else Some(ReduceField(key, ReducerFor(graph, key), Field(snapshot, key), ws))
  }

  /** The fold of these fields, and who wrote each. */
  function Folded(graph: Graph, snapshot: State, items: seq<Contribution>, keys: seq<string>): Fold {
    if keys == [] then Fold(map[], map[]) else
    var front, key := Folded(graph, snapshot, items, keys[..|keys| - 1]), keys[|keys| - 1];
    match Reduced(graph, snapshot, items, key)
    case Some(Success(v)) => Fold(front.merged[key := v], front.provenance[key := Branches(Writes(items, key))])
    case _ => front
  }

  /** What comes after the first `key`. */
  function Beyond(keys: seq<string>, key: string): seq<string> {
    if keys == [] then [] else if keys[0] == key then keys[1..] else Beyond(keys[1..], key)
  }

  // ----- what must come -----

  /** An event, an error, or nothing more. */
  datatype Due = Emit(e: Event) | Fail(error: Error) | Over

  /** The run stops at `node`, in `base`. */
  function Halting(base: State, node: string, steps: nat, reason: string): Due {
    if !base[METADATA].Dict? then Fail(NotMapping)
    else Emit(Observed(Stopped(node, steps, Noted(base, "stopped", StopNote(node, reason)))))
  }

  /** The run pauses for an interrupt `node` raised in `base`. */
  function Pausing(base: State, node: string, steps: nat, branches: seq<string>, prompt: Value, payload: Value): Due {
    if !base[METADATA].Dict? then Fail(NotMapping)
    else if !Copyable(prompt) || !Copyable(payload) then Fail(Uncopyable)
    else
      Emit(Observed(Interrupted(node, steps, branches,
                                Noted(base, "interrupted", PauseNote(node, prompt, payload)))))
  }

  /** The callable of `q`, which is allowed, gets control. */
  function Acting(gate: Gate, log: Log, q: DispatchRequest): Due {
    if gate.Gate? && gate.start.Some? then Emit(Marked(q, gate.start.value(log, q))) else Emit(Entered(q))
  }

  function Asking(gate: Gate, log: Log, q: DispatchRequest): Due {
    if gate.Gate? then Emit(Decided(q, gate.dispatch(log, q))) else Emit(Entered(q))
  }

  /** `target` was selected. */
  function Selecting(graph: Graph, node: string, target: string, steps: nat, state: State): Due {
    if target == "" then Fail(EmptyRoute)
    else if target != END && target !in graph.nodes then Fail(UnknownRoute(target))
    else Emit(Observed(EdgeSelected(node, target, steps, state)))
  }

  /** What follows `node`, whose edge is no region or whose region has committed. */
  function Leaving(ctx: Ctx, log: Log, node: string, steps: nat, state: State): Due {
    if node !in ctx.graph.edges then Selecting(ctx.graph, node, END, steps, state) else
    match ctx.graph.edges[node]
    case Static(target) => Selecting(ctx.graph, node, target, steps, state)
    case FanOut(_, next, _) => Selecting(ctx.graph, node, next, steps, state)
    case Conditional(_, _, _) =>
      Asking(ctx.gate, log, DispatchRequest(AtRouter, [node], steps, Some(node), None))
  }

  /** The region of `node` is opened. */
  function Opening(graph: Graph, node: string, branches: seq<string>, next: string, steps: nat, state: State): Due {
    if steps + |branches| > graph.maxSteps then Fail(MaxStepsExceeded(steps, node))
    else if MissingBranch(graph, branches).Some? then Fail(UnknownNode(MissingBranch(graph, branches).value))
    else if next != END && next !in graph.nodes then Fail(UnknownRoute(next))
    else
      match Unpack(state[VISITED])
      case None => Fail(NotIterable)
      case Some(before) =>
        Emit(Observed(SuperstepStart(node, next, steps, branches, state[VISITED := List(before + Strs(branches))])))
  }

  /** After `target` was selected: the end, the budget, or the start of the node. */
  function Arriving(graph: Graph, node: string, target: string, steps: nat, state: State): Due {
    if target == END then Emit(Observed(Done(steps, state[STATUS := Str("done")])))
    else if steps >= graph.maxSteps then Fail(MaxStepsExceeded(steps, node))
    else
      match Unpack(state[VISITED])
      case None => Fail(NotIterable)
      case Some(before) => Emit(Observed(NodeStart(target, steps, state[VISITED := List(before + [Str(target)])])))
  }

  // ----- within a region -----

  /** The next branch is announced; after the last the gate decides on the whole batch. */
  function Announcing(ctx: Ctx, initial: State, log: Log): Due {
    match Current(ctx, log)
    case None => Over
    case Some(region) =>
      var n := Started(log);
      var q := region.Request(AtFanOut, region.branches, region.steps);
      if n < |region.branches| then Emit(Observed(NodeStart(region.branches[n], region.steps, region.snapshot)))
      else if ctx.gate.Gate? then Emit(Decided(q, ctx.gate.dispatch(log, q)))
      else Stepping(ctx, initial, log)
  }

  /** The branch the event loop chose takes a step; once all have settled the region is closed. */
  function Stepping(ctx: Ctx, initial: State, log: Log): Due {
    match Current(ctx, log)
    case None => Over
    case Some(region) =>
      var tasks := Standings(ctx.graph, region, log);
      if AllFinished(tasks) then Closing(ctx, initial, log, Concluded(ctx, log).value)
      else Advancing(ctx, log, region, Choose(tasks, ctx.pick(log)), tasks[Choose(tasks, ctx.pick(log))])
  }

  /** A gate with start markers is asked for each branch; each is marked, entered and left. */
  function Advancing(ctx: Ctx, log: Log, region: Region, i: nat, task: Task): Due
    requires i < |region.branches|
  {
    var q, b := region.Site(i), region.branches[i];
    match task
    case Fresh => if ctx.gate.Durable() then Emit(Decided(q, ctx.gate.dispatch(log, q))) else Emit(Entered(q))
    case Admitted => if ctx.gate.Durable() then Emit(Marked(q, ctx.gate.start.value(log, q))) else Over
    case Running =>
      if b in ctx.graph.nodes then Emit(Left(q, ctx.graph.nodes[b].call(region.snapshot).Delivers?)) else Over
    case Finished(_) => Over
  }

  /** Refused branches come first, then failed starts, stops and interrupts; then the join. */
  function Closing(ctx: Ctx, initial: State, log: Log, c: Closed): Due
    requires c.Valid()
  {
    var settled, region := c.settled, c.region;
    var refused, starts := Earliest(settled, JoinLaws.IsNotAdmitted), Earliest(settled, JoinLaws.IsRefusedStart);
    var stopped, paused := Earliest(settled, JoinLaws.IsBranchStopped), Earliest(settled, JoinLaws.IsPaused);
    if refused < |settled| then Fail(settled[refused].error)
    else if starts < |settled| then Fail(settled[starts].error)
    else if Earliest(settled, JoinLaws.IsNotStarted) < |settled| then
      Fail(StartsFailed(region.source, StartErrors(settled)))
    else if stopped < |settled| then
      Halting(Published(initial, log), region.source, region.steps, settled[stopped].reason)
    else if paused < |settled| then
      var fault := settled[paused].error.fault;
      Pausing(region.snapshot, region.branches[paused], region.steps, region.branches, fault.prompt, fault.payload)
    else if c.edge.join.CustomJoin? then Asking(ctx.gate, log, c.Request(AtJoin, region.branches))
    else Admitting(ctx, log, c)
  }

  /** The join admits; the gate decides on the fold as a whole. */
  function Admitting(ctx: Ctx, log: Log, c: Closed): Due
    requires c.Valid()
  {
    match c.Admitted()
    case Failure(error) => Fail(error)
    case Success(items) =>
      var q := c.Request(AtReducer, Names(items));
      if ctx.gate.Gate? then Emit(Decided(q, ctx.gate.dispatch(log, q)))
      else Folding(ctx, log, c, items, SortedKeys(Keys(items)))
  }

  /** The fields are folded in ascending order. Only a custom reducer is user code: it is
      entered, and a gate with start markers is asked first. */
  function Folding(ctx: Ctx, log: Log, c: Closed, items: seq<Contribution>, keys: seq<string>): Due
    decreases |keys|, 1
  {
    if keys == [] then Sealing(ctx, log, c, items) else
    var key := keys[0];
    var q := c.Request(AtReducer, Names(items) + [key]);
    if ReducerFor(ctx.graph, key).Custom? then
      if !AllCopyable(Writes(items, key)) then Fail(Uncopyable)
      else if ctx.gate.Durable() then Emit(Decided(q, ctx.gate.dispatch(log, q)))
      else Emit(Entered(q))
    else Reducing(ctx, log, c, items, keys)
  }

  /** The first field is reduced, then the others. */
  function Reducing(ctx: Ctx, log: Log, c: Closed, items: seq<Contribution>, keys: seq<string>): Due
    requires keys != []
    decreases |keys|, 0
  {
    match Reduced(ctx.graph, c.region.snapshot, items, keys[0])
    case None => Over
    case Some(Failure(error)) => Fail(error)
    case Some(Success(_)) => Folding(ctx, log, c, items, keys[1..])
  }

  /** The request to commit what was folded. */
  function RegionDelta(ctx: Ctx, c: Closed, items: seq<Contribution>): CommitRequest {
    var fold := Folded(ctx.graph, c.region.snapshot, items, SortedKeys(Keys(items)));
    CommitRequest(RegionCommit, Names(items), c.Completed(), Some(c.region.source), Sha256(fold.merged),
                  Some(c.region.batch))
  }

  /** The whole fold is committed. */
  function Sealing(ctx: Ctx, log: Log, c: Closed, items: seq<Contribution>): Due {
    Delivering(ctx, log, RegionDelta(ctx, c, items), Ending(ctx, c, items, 0))
  }

  /** The gate decides on a delta, if it is JSON; without a gate `shown` comes at once. */
  function Delivering(ctx: Ctx, log: Log, c: CommitRequest, shown: Due): Due {
    if !CopyableDelta(c.digest.content) then Fail(Uncopyable)
    else if ctx.gate.NoGate? then shown
    else if !JsonDelta(c.digest.content) then Fail(NotJson)
    else Emit(CommitDecided(c, ctx.gate.commit(log, c)))
  }

  /** After `n` ends of admitted branches the next is shown, and after all of them the commit. */
  function Ending(ctx: Ctx, c: Closed, items: seq<Contribution>, n: nat): Due {
    if !c.edge.FanOut? then Over else
    var fold := Folded(ctx.graph, c.region.snapshot, items, SortedKeys(Keys(items)));
    var committed := c.region.snapshot + fold.merged;
    if n < |items| then Emit(Observed(NodeEnd(items[n].branch, c.Completed(), committed, items[n].delta)))
    else
      Emit(Observed(SuperstepCommit(c.region.source, c.edge.next, c.Completed(), Names(items), committed, fold.merged,
                                    fold.provenance)))
  }

  /** The publication of the region goes on. */
  function Publishing(ctx: Ctx, log: Log): Due {
    match Concluded(ctx, log)
    case None => Over
    case Some(c) =>
      match c.Admitted()
      case Failure(_) => Over
      case Success(items) => Ending(ctx, c, items, |Ends(log)|)
  }

  /** The fold was allowed as a whole, or the custom reducer of one field was. */
  function FoldAllowed(ctx: Ctx, log: Log, q: DispatchRequest): Due {
    match Concluded(ctx, log)
    case None => Over
    case Some(c) =>
      match c.Admitted()
      case Failure(_) => Over
      case Success(items) =>
        if q.nodes == Names(items) then Folding(ctx, log, c, items, SortedKeys(Keys(items)))
        else Acting(ctx.gate, log, q)
  }

  /** The custom join of a region, or the custom reducer of a field, got control. */
  function Deciding(ctx: Ctx, log: Log, q: DispatchRequest): Due {
    match Concluded(ctx, log)
    case None => Over
    case Some(c) =>
      if q.boundary.AtJoin? then Admitting(ctx, log, c) else
      match c.Admitted()
      case Failure(_) => Over
      case Success(items) =>
        if q.nodes == [] then Over else
        var key := q.nodes[|q.nodes| - 1];
        Reducing(ctx, log, c, items, [key] + Beyond(SortedKeys(Keys(items)), key))
  }

  // ----- answers are carried out -----

  /** Where and in which state a decision stops the run. */
  function StopAt(initial: State, log: Log, q: DispatchRequest, reason: string): Due {
    match q.boundary
    case AtNode =>
      if |q.nodes| == 1 && q.nodes[0] in Given(log) then Halting(Given(log)[q.nodes[0]], q.nodes[0], q.steps, reason)
      else Over
    case AtRouter => if |q.nodes| == 1 then Halting(Published(initial, log), q.nodes[0], q.steps, reason) else Over
    case _ =>
      match Opened(log)
      case None => Over
      case Some((node, steps)) => Halting(Published(initial, log), node, steps, reason)
  }

  /** A dispatch decision is carried out. */
  function Obeying(ctx: Ctx, initial: State, log: Log, q: DispatchRequest, answer: Answer): Due {
    if OfBranch(q) then Stepping(ctx, initial, log)
    else if Rejection(answer, q.nodes).Some? then Fail(Rejection(answer, q.nodes).value)
    else if answer.Says? && answer.decision.Stop? then StopAt(initial, log, q, answer.decision.reason)
    else if q.boundary.AtFanOut? then Stepping(ctx, initial, log)
    else if q.boundary.AtReducer? then FoldAllowed(ctx, log, q)
    else Acting(ctx.gate, log, q)
  }

  /** An allowed commit is published. */
  function Showing(ctx: Ctx, log: Log, c: CommitRequest): Due {
    match c.boundary
    case NodeCommit =>
      if |c.nodes| == 1 && c.nodes[0] in Given(log) then
        Emit(Observed(NodeEnd(c.nodes[0], c.steps + 1, Given(log)[c.nodes[0]] + c.digest.content, c.digest.content)))
      else Over
    case RegionCommit => Publishing(ctx, log)
  }

  /** A commit decision is carried out, and the settlement hook runs right after an allow. */
  function Committing(ctx: Ctx, initial: State, log: Log, c: CommitRequest, answer: Answer): Due {
    if Rejection(answer, c.nodes).Some? then Fail(Rejection(answer, c.nodes).value)
    else if answer.Says? && answer.decision.Stop? then
      match c.boundary
      case NodeCommit =>
        if |c.nodes| == 1 && c.nodes[0] in Given(log)
        then Halting(Given(log)[c.nodes[0]], c.nodes[0], c.steps, answer.decision.reason) else Over
      case RegionCommit =>
        match Opened(log)
        case None => Over
        case Some((node, steps)) => Halting(Published(initial, log), node, steps, answer.decision.reason)
    else if ctx.gate.Gate? && ctx.gate.settle.Some? then Emit(Settled(c, ctx.gate.settle.value(log, c)))
    else Showing(ctx, log, c)
  }

  /** What a node's callable answers to the state it was given. */
  function Answering(ctx: Ctx, log: Log, node: string, steps: nat): Due
    requires node in ctx.graph.nodes && node in Given(log)
  {
    var given := Given(log)[node];
    match ctx.graph.nodes[node].call(given)
    case NodeThrows(Interrupt(prompt, payload)) => Pausing(given, node, steps, [], prompt, payload)
    case NodeThrows(fault) => Fail(Raised(fault))
    case DeliversOther => Fail(NotADict(node))
    case Delivers(delta) =>
      Delivering(ctx, log, CommitRequest(NodeCommit, [node], steps, None, Sha256(delta), None),
                 Emit(Observed(NodeEnd(node, steps + 1, given + delta, delta))))
  }

  /** What a router answers to the state published last. */
  function Routing(graph: Graph, node: string, steps: nat, state: State): Due {
    if node !in graph.edges || !graph.edges[node].Conditional? then Over else
    match graph.edges[node].router(state)
    case Routes(target) => Selecting(graph, node, target, steps, state)
    case RoutesOther => Fail(RouteNotString)
    case RouterThrows(fault) => Fail(Raised(fault))
  }

  /** After a publication: its hook's error, or what follows the node. */
  function Following(ctx: Ctx, log: Log, node: string, steps: nat, state: State, committed: bool): Due {
    if Hooked(log).Some? && HookError(Hooked(log).value).Some? then Fail(HookError(Hooked(log).value).value)
    else if !committed && node in ctx.graph.edges && ctx.graph.edges[node].FanOut? then
      var edge := ctx.graph.edges[node];
      Opening(ctx.graph, node, edge.branches, edge.next, steps, state)
    else Leaving(ctx, log, node, steps, state)
  }

  function Starting(ctx: Ctx, initial: State): Due {
    if START in ctx.graph.edges && ctx.graph.edges[START].FanOut? then Fail(FanOutAsRoute)
    else Leaving(ctx, [], START, 0, initial)
  }

  /** What must come after `log`, which ends in `e`. */
  function After(ctx: Ctx, initial: State, log: Log, e: Event): Due {
    match e
    case Observed(EdgeSelected(node, target, steps, state)) => Arriving(ctx.graph, node, target, steps, state)
    case Observed(NodeStart(node, steps, _)) =>
      if Opened(log).Some? then Announcing(ctx, initial, log)
      else Asking(ctx.gate, log, DispatchRequest(AtNode, [node], steps, None, None))
    case Observed(NodeEnd(node, steps, state, _)) =>
      if Opened(log).Some? then Publishing(ctx, log) else Following(ctx, log, node, steps, state, false)
    case Observed(SuperstepStart(_, _, _, _, _)) => Announcing(ctx, initial, log)
    case Observed(SuperstepCommit(node, _, steps, _, state, _, _)) => Following(ctx, log, node, steps, state, true)
    case Observed(_) => Over
    case Decided(q, answer) => Obeying(ctx, initial, log, q, answer)
    case Marked(q, hook) =>
      if hook.Completed? then Emit(Entered(q))
      else if OfBranch(q) then Stepping(ctx, initial, log) else Fail(HookError(hook).value)
    case Entered(q) =>
      if OfBranch(q) then Stepping(ctx, initial, log)
      else if OfNode(q) && q.nodes[0] in ctx.graph.nodes && q.nodes[0] in Given(log) then
        Emit(Left(q, ctx.graph.nodes[q.nodes[0]].call(Given(log)[q.nodes[0]]).Delivers?))
      else if q.boundary.AtRouter? && |q.nodes| == 1 then
        Routing(ctx.graph, q.nodes[0], q.steps, Published(initial, log))
      else Deciding(ctx, log, q)
    case Left(q, _) =>
      if OfBranch(q) then Stepping(ctx, initial, log)
      else if OfNode(q) && q.nodes[0] in ctx.graph.nodes && q.nodes[0] in Given(log) then
        Answering(ctx, log, q.nodes[0], q.steps)
      else Over
    case CommitDecided(c, answer) => Committing(ctx, initial, log, c, answer)
    case Settled(c, _) => Showing(ctx, log, c)
  }

  function Rule(ctx: Ctx, initial: State, log: Log): Due {
    if log == [] then Starting(ctx, initial) else After(ctx, initial, log, log[|log| - 1])
  }

  /** `e` is due after `log`. */
  ghost predicate Proper(ctx: Ctx, initial: State, log: Log, e: Event) { Rule(ctx, initial, log) == Emit(e) }

  /** Every event of `log` was due. */
  ghost predicate Lawful(ctx: Ctx, initial: State, log: Log) {
    log == [] ||
    (Lawful(ctx, initial, log[..|log| - 1]) && Proper(ctx, initial, log[..|log| - 1], log[|log| - 1]))
  }

  /** The computation did what it had to; if it ended, nothing more was due, and if it raised,
      exactly this error was. */
  ghost predicate Fits<T>(ctx: Ctx, initial: State, f: Flow<T>) {
    && Lawful(ctx, initial, f.log)
    && (f.Ended? ==> Rule(ctx, initial, f.log).Over?)
    && (f.Raise? ==> Rule(ctx, initial, f.log) == Fail(f.error))
  }

  // ----- one event -----

  lemma Step(ctx: Ctx, initial: State, log: Log, e: Event)
    requires Lawful(ctx, initial, log) && Proper(ctx, initial, log, e)
    ensures Lawful(ctx, initial, log + [e]) && Rule(ctx, initial, log + [e]) == After(ctx, initial, log + [e], e)
  {
    hide Proper, After;
    assert (log + [e])[..|log|] == log;
  }

  /** What an event changes about what a log tells. */
  lemma Reads(initial: State, log: Log, e: Event)
    ensures Given(log + [e]) ==
              if e.Observed? && e.obs.NodeStart? then Given(log)[e.obs.node := e.obs.state] else Given(log)
    ensures Published(initial, log + [e]) ==
              if e.Observed? && (e.obs.NodeEnd? || e.obs.SuperstepCommit?) then e.obs.state
              else Published(initial, log)
    ensures Opened(log + [e]) ==
              if e.Observed? && e.obs.SuperstepStart? then Some((e.obs.node, e.obs.steps))
              else if e.Observed? && e.obs.EdgeSelected? then None else Opened(log)
    ensures Hooked(log + [e]) ==
              if e.Settled? then Some(e.hook)
              else if e.Observed? && (e.obs.NodeEnd? || e.obs.SuperstepCommit?) then Hooked(log) else None
  {
    assert (log + [e])[..|log|] == log;
  }

  lemma NotedIsAnnotated(base: State, status: string, extra: map<string, Value>)
    ensures Annotate(base, status, extra) == if base[METADATA].Dict? then Some(Noted(base, status, extra)) else None
  {
    if base[METADATA].Dict? {
      assert Noted(base, status, extra)
          == base + map[STATUS := Str(status), METADATA := Dict(base[METADATA].entries + extra)];
    }
  }

  lemma HaltFits<T>(ctx: Ctx, initial: State, log: Log, state: State, node: string, steps: nat, reason: string)
    requires Lawful(ctx, initial, log) && Rule(ctx, initial, log) == Halting(state, node, steps, reason)
    ensures Fits(ctx, initial, Halt<T>(log, state, node, steps, reason))
  {
    hide Lawful, Rule, Noted;
    NotedIsAnnotated(state, "stopped", StopNote(node, reason));
    var f := Halt<T>(log, state, node, steps, reason);
    if f.Ended? { Step(ctx, initial, log, f.log[|log|]); }
  }

}
