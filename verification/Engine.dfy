/** The scheduler as a function of its environment. The environment is a gate, the
    event loop's choice of which branch task steps next, and the correlation tokens;
    gate and event loop may depend on everything that happened so far. */
module Engine {
  import opened Values
  import opened Ordering
  import opened Protocol
  import opened Reducers
  import opened Topology

  /** What the scheduler yields. */
  datatype Observation =
    | EdgeSelected(node: string, target: string, steps: nat, state: State)
    | NodeStart(node: string, steps: nat, state: State)
    | NodeEnd(node: string, steps: nat, state: State, delta: Delta)
    | SuperstepStart(node: string, target: string, steps: nat, branches: seq<string>, state: State)
    | SuperstepCommit(node: string, target: string, steps: nat, branches: seq<string>, state: State, delta: Delta,
                      provenance: map<string, seq<string>>)
    | Interrupted(node: string, steps: nat, branches: seq<string>, state: State)
    | Stopped(node: string, steps: nat, state: State)
    | Done(steps: nat, state: State)
  {
    predicate Terminal() { Interrupted? || Stopped? || Done? }
  }

  /** Everything that happens in a run, in order: observations, gate decisions and
      hooks, and the moments control enters a user callable or leaves a node. A
      callable is named by the request that describes it. */
  datatype Event =
    | Observed(obs: Observation)
    | Decided(request: DispatchRequest, answer: Answer)
    | Marked(request: DispatchRequest, hook: Hook)
    | Entered(site: DispatchRequest)
    | Left(site: DispatchRequest, delivered: bool)
    | CommitDecided(commit: CommitRequest, answer: Answer)
    | Settled(commit: CommitRequest, hook: Hook)

  type Log = seq<Event>

  datatype Gate =
    | NoGate
    | Gate(dispatch: (Log, DispatchRequest) -> Answer,
           start: Option<(Log, DispatchRequest) -> Hook>,
           commit: (Log, CommitRequest) -> Answer,
           settle: Option<(Log, CommitRequest) -> Hook>)
  {
    /** The gate implements `before_start`. */
    predicate Durable() { Gate? && start.Some? }
  }

  datatype Ctx = Ctx(graph: Graph, gate: Gate, pick: Log -> nat, token: nat -> string)

  /** A computation goes on with a value, ends the run after its terminal
      observation, or raises. */
  datatype Flow<+T> = Go(log: Log, value: T) | Ended(log: Log) | Raise(log: Log, error: Error) {
    predicate IsFailure() { !Go? }

    function PropagateFailure<U>(): (r: Flow<U>)
      requires !Go?
      ensures r.log == log
    {
      match this
      case Ended(l) => Ended(l)
      case Raise(l, e) => Raise(l, e)
    }

    function Extract(): (Log, T)
      requires Go?
    {
      (log, value)
    }
  }

  // ----- gate boundaries -----

  function Ask(gate: Gate, log: Log, request: DispatchRequest): (r: Flow<Option<string>>)
    ensures log <= r.log
  {
    if gate.NoGate? then Go(log, None) else
    var answer := gate.dispatch(log, request);
    var asked := log + [Decided(request, answer)];
    match Enforce(answer, request.nodes)
    case Failure(error) => Raise(asked, error)
    case Success(stop) => Go(asked, stop)
  }

  function Mark(gate: Gate, log: Log, request: DispatchRequest): (r: Flow<()>)
    ensures log <= r.log
  {
    if !gate.Durable() then Go(log, ()) else
    var hook := gate.start.value(log, request);
    var marked := log + [Marked(request, hook)];
    match HookError(hook)
    case Some(error) => Raise(marked, error)
    case None => Go(marked, ())
  }

  function Halt<T>(log: Log, state: State, node: string, steps: nat, reason: string): (r: Flow<T>)
    ensures log <= r.log && !r.Go?
  {
    match Annotate(state, "stopped", map["stop_node" := Str(node), "stop_reason" := Str(reason)])
    case None => Raise(log, NotMapping)
    case Some(stopped) => Ended(log + [Observed(Stopped(node, steps, stopped))])
  }

  /** Ask; a stop ends the run, reported for `node` with `state`. */
  function Permit(gate: Gate, log: Log, request: DispatchRequest, state: State, node: string, steps: nat)
    : (r: Flow<()>)
    ensures log <= r.log
  {
    var (asked, stop) :- Ask(gate, log, request);
    if stop.Some? then Halt(asked, state, node, steps, stop.value) else Go(asked, ())
  }

  /** Ask, mark, and hand control to the callable `request` names. */
  function Guard(gate: Gate, log: Log, request: DispatchRequest, state: State, node: string, steps: nat)
    : (r: Flow<()>)
    ensures log <= r.log
  {
    var (allowed, _) :- Permit(gate, log, request, state, node, steps);
    var (marked, _) :- Mark(gate, allowed, request);
    Go(marked + [Entered(request)], ())
  }

  /** Ask before publishing `delta`; the request's digest binds exactly that delta. */
  function Commit(gate: Gate, log: Log, request: CommitRequest, state: State, node: string, steps: nat): (r: Flow<()>)
    ensures log <= r.log
  {
    var delta := request.digest.content;
    if !CopyableDelta(delta) then Raise(log, Uncopyable)
    else if gate.NoGate? then Go(log, ())
    else if !JsonDelta(delta) then Raise(log, NotJson)
    else
      var answer := gate.commit(log, request);
      var asked := log + [CommitDecided(request, answer)];
      match Enforce(answer, request.nodes)
      case Failure(error) => Raise(asked, error)
      case Success(Some(reason)) => Halt(asked, state, node, steps, reason)
      case Success(None) => Go(asked, ())
  }

  /** The settlement hook after publication; its error is kept, not raised yet. */
  function AfterCommit(gate: Gate, log: Log, request: CommitRequest): (r: (Log, Option<Error>))
    ensures log <= r.0
  {
    if gate.NoGate? || gate.settle.None? then (log, None) else
    var hook := gate.settle.value(log, request);
    (log + [Settled(request, hook)], HookError(hook))
  }

  // ----- one node -----

  function InterruptRun<T>(log: Log, state: State, node: string, steps: nat, branches: seq<string>, fault: Fault)
    : (r: Flow<T>)
    requires fault.Interrupt?
    ensures log <= r.log && !r.Go?
  {
    match Annotate(state, "interrupted",
                   map["interrupt_node" := Str(node), "interrupt_prompt" := fault.prompt,
                       "interrupt_payload" := fault.payload])
    case None => Raise(log, NotMapping)
    case Some(paused) =>
      if !Copyable(fault.prompt) || !Copyable(fault.payload) then Raise(log, Uncopyable)
      else Ended(log + [Observed(Interrupted(node, steps, branches, paused))])
  }

  function NodeSite(node: string, steps: nat): DispatchRequest {
    DispatchRequest(AtNode, [node], steps, None, None)
  }

  function RunNode(ctx: Ctx, state: State, steps: nat, node: string, log: Log): (r: Flow<State>)
    ensures log <= r.log
  {
    if node !in ctx.graph.nodes then Raise(log, UnknownNode(node)) else
    var visited := Visit(state, [node]);
    if visited.None? then Raise(log, NotIterable) else
    var running := visited.value;
    var site := NodeSite(node, steps);
    var (entered, _) :-
      Guard(ctx.gate, log + [Observed(NodeStart(node, steps, running))], site, running, node, steps);
    var answer := ctx.graph.nodes[node].call(running);
    var left := entered + [Left(site, answer.Delivers?)];
    match answer
    case NodeThrows(fault) =>
      if fault.Interrupt? then InterruptRun(left, running, node, steps, [], fault) else Raise(left, Raised(fault))
    case DeliversOther => Raise(left, NotADict(node))
    case Delivers(delta) => PublishNode(ctx.gate, running, steps, node, delta, left)
  }

  function PublishNode(gate: Gate, running: State, steps: nat, node: string, delta: Delta, log: Log): (r: Flow<State>)
    ensures log <= r.log
  {
    var request := CommitRequest(NodeCommit, [node], steps, None, Sha256(delta), None);
    var (allowed, _) :- Commit(gate, log, request, running, node, steps);
    var published := Merge(running, delta);
    var (settled, failure) := AfterCommit(gate, allowed, request);
    var ended := settled + [Observed(NodeEnd(node, steps + 1, published, delta))];
    if failure.Some? then Raise(ended, failure.value) else Go(ended, published)
  }

  // ----- branch tasks of a region -----

  datatype Settlement =
    | Ok(delta: Delta)
    | Failed(error: Error)
    | NotAdmitted(error: Error)
    | BranchStopped(reason: string)
    | NotStarted(error: Error)

  /** Where a branch task is: not started, admitted and about to be marked, inside
      its callable, or settled. */
  datatype Task = Fresh | Admitted | Running | Finished(outcome: Settlement)

  datatype Region = Region(source: string, branches: seq<string>, steps: nat, batch: string, snapshot: State)
  {
    function Site(i: nat): DispatchRequest
      requires i < |branches|
    {
      DispatchRequest(AtNode, [branches[i]], steps, Some(source), Some(batch))
    }

    function Request(boundary: Boundary, nodes: seq<string>, completed: nat): DispatchRequest {
      DispatchRequest(boundary, nodes, completed, Some(source), Some(batch))
    }

    predicate In(graph: Graph) { forall b <- branches :: b in graph.nodes }
  }

  /** How the branch callable itself settles its task. */
  function Call(graph: Graph, region: Region, i: nat): Settlement
    requires i < |region.branches| && region.In(graph)
  {
    match graph.nodes[region.branches[i]].call(region.snapshot)
    case Delivers(delta) => Ok(delta)
    case DeliversOther => Failed(NotADict(region.branches[i]))
    case NodeThrows(fault) => Failed(Raised(fault))
  }

  /** One uninterrupted stretch of task `i`, from one await to the next. */
  function StepTask(ctx: Ctx, region: Region, i: nat, task: Task, log: Log): (r: (Task, Log))
    requires i < |region.branches| && region.In(ctx.graph) && !task.Finished?
    ensures log <= r.1
    ensures TaskWork(r.0) < TaskWork(task)
  {
    var site := region.Site(i);
    match task
    case Fresh =>
      if !ctx.gate.Durable() then (Running, log + [Entered(site)]) else
      var asked := Ask(ctx.gate, log, site);
      (match asked
       case Raise(_, error) => Finished(NotAdmitted(error))
       case Go(_, Some(reason)) => Finished(BranchStopped(reason))
       case Go(_, None) => Admitted,
       asked.log)
    case Admitted =>
      var marked := Mark(ctx.gate, log, site);
      if marked.Raise? then (Finished(NotStarted(marked.error)), marked.log)
      else (Running, marked.log + [Entered(site)])
    case Running =>
      var outcome := Call(ctx.graph, region, i);
      (Finished(outcome), log + [Left(site, outcome.Ok?)])
  }

  function TaskWork(task: Task): nat {
    match task case Fresh => 3 case Admitted => 2 case Running => 1 case Finished(_) => 0
  }

  function Work(tasks: seq<Task>): nat {
    if tasks == [] then 0 else TaskWork(tasks[0]) + Work(tasks[1..])
  }

  lemma {:induction false} WorkUpdate(tasks: seq<Task>, i: nat, task: Task)
    requires i < |tasks|
    ensures Work(tasks[i := task]) == Work(tasks) - TaskWork(tasks[i]) + TaskWork(task)
  {
    if i == 0 {
      assert tasks[0 := task][1..] == tasks[1..];
    } else {
      assert tasks[i := task][1..] == tasks[1..][i - 1 := task];
      WorkUpdate(tasks[1..], i - 1, task);
    }
  }

  predicate AllFinished(tasks: seq<Task>) { forall t <- tasks :: t.Finished? }

  /** The task the event loop resumes: its choice if it can step, else the first that can. */
  function Choose(tasks: seq<Task>, choice: nat): (i: nat)
    requires !AllFinished(tasks)
    ensures i < |tasks| && !tasks[i].Finished?
  {
    if choice < |tasks| && !tasks[choice].Finished? then choice else FirstUnfinished(tasks)
  }

  function FirstUnfinished(tasks: seq<Task>): (i: nat)
    requires !AllFinished(tasks)
    ensures i < |tasks| && !tasks[i].Finished?
  {
    if !tasks[0].Finished? then 0
    else
      assert tasks == [tasks[0]] + tasks[1..];
      1 + FirstUnfinished(tasks[1..])
  }

  /** Interleave the tasks until every one has settled. */
  function SettleAll(ctx: Ctx, region: Region, tasks: seq<Task>, log: Log): (r: (seq<Task>, Log))
    requires |tasks| == |region.branches| && region.In(ctx.graph)
    ensures |r.0| == |tasks| && AllFinished(r.0)
    ensures log <= r.1
    decreases Work(tasks)
  {
    if AllFinished(tasks) then (tasks, log) else
    var i := Choose(tasks, ctx.pick(log));
    var (task, stepped) := StepTask(ctx, region, i, tasks[i], log);
    WorkUpdate(tasks, i, task);
    SettleAll(ctx, region, tasks[i := task], stepped)
  }

  // ----- reading the settled branches -----

  function Outcomes(tasks: seq<Task>): (outcomes: seq<Settlement>)
    requires AllFinished(tasks)
    ensures |outcomes| == |tasks|
  {
    seq(|tasks|, i requires 0 <= i < |tasks| => tasks[i].outcome)
  }

  function AdmissionErrors(settled: seq<Settlement>): seq<Error> {
    if settled == [] then [] else
    (if settled[0].NotAdmitted? then [settled[0].error] else []) + AdmissionErrors(settled[1..])
  }

  function StartErrors(settled: seq<Settlement>): seq<Error> {
    if settled == [] then [] else
    (if settled[0].NotStarted? then [settled[0].error] else []) + StartErrors(settled[1..])
  }

  function GateRefusals(errors: seq<Error>): seq<Error> {
    if errors == [] then [] else
    (if IsGateRefused(errors[0]) then [errors[0]] else []) + GateRefusals(errors[1..])
  }

  function StopReasons(settled: seq<Settlement>): seq<string> {
    if settled == [] then [] else
    (if settled[0].BranchStopped? then [settled[0].reason] else []) + StopReasons(settled[1..])
  }

  function Failures(settled: seq<Settlement>): seq<Error> {
    if settled == [] then [] else
    (if settled[0].Failed? then [settled[0].error] else []) + Failures(settled[1..])
  }

  function FirstInterrupt(settled: seq<Settlement>): (i: nat)
    ensures i <= |settled|
    ensures i < |settled| ==> settled[i].Failed? && IsInterrupt(settled[i].error)
  {
    if settled == [] || (settled[0].Failed? && IsInterrupt(settled[0].error)) then 0
    else 1 + FirstInterrupt(settled[1..])
  }

  datatype Contribution = Contribution(branch: string, delta: Delta)

  function Successes(branches: seq<string>, settled: seq<Settlement>): (ok: seq<Contribution>)
    requires |branches| == |settled|
    ensures |ok| <= |branches|
  {
    if settled == [] then [] else
    (if settled[0].Ok? then [Contribution(branches[0], settled[0].delta)] else [])
      + Successes(branches[1..], settled[1..])
  }

  function Names(items: seq<Contribution>): (names: seq<string>)
    ensures |names| == |items|
    ensures forall i :: 0 <= i < |items| ==> names[i] == items[i].branch
  {
    seq(|items|, i requires 0 <= i < |items| => items[i].branch)
  }

  function JoinView(branches: seq<string>, settled: seq<Settlement>): seq<BranchOutcome>
    requires |branches| == |settled|
  {
    seq(|settled|, i requires 0 <= i < |settled| =>
      BranchOutcome(branches[i], settled[i].Ok?, if settled[i].Failed? then Some(settled[i].error) else None))
  }

  /** The first admitted name that is no successful branch, if any. */
  function Foreigner(names: seq<string>, ok: seq<Contribution>): Option<string> {
    if names == [] then None
    else if names[0] !in Names(ok) then Some(names[0])
    else Foreigner(names[1..], ok)
  }

  function Chosen(ok: seq<Contribution>, names: seq<string>): seq<Contribution> {
    if ok == [] then [] else
    (if ok[0].branch in names then [ok[0]] else []) + Chosen(ok[1..], names)
  }

  /** `_admit`: the admitted branches in canonical order, never none. */
  function Admit(source: string, join: Join, branches: seq<string>, settled: seq<Settlement>)
    : (r: Result<seq<Contribution>, Error>)
    requires |branches| == |settled|
    ensures r.Success? ==> r.value != []
  {
    var ok := Successes(branches, settled);
    var failed := Failures(settled);
    var refused := Failure(JoinRefused(source, if failed == [] then [NoBranchAdmitted] else failed));
    match join
    case JoinAll => if failed == [] && ok != [] then Success(ok) else refused
    case JoinAny => if ok != [] then Success(ok) else refused
    case FirstSuccess => if ok != [] then Success(ok[..1]) else refused
    case Quorum(n) => if |ok| >= n && ok != [] then Success(ok) else refused
    case CustomJoin(admit, _) =>
      match admit(JoinView(branches, settled))
      case JoinThrows(fault) => Failure(Raised(fault))
      case Admits(names) =>
        var foreigner := Foreigner(names, ok);
        if foreigner.Some? then Failure(ForeignBranch(source, foreigner.value)) else
        var chosen := Chosen(ok, names);
        if chosen != [] then Success(chosen) else refused
  }

  // ----- the fold -----

  /** Every field some admitted delta writes. */
  function Keys(items: seq<Contribution>): set<string> {
    if items == [] then {} else items[0].delta.Keys + Keys(items[1..])
  }

  /** The writes to one field, in branch order. */
  function Writes(items: seq<Contribution>, key: string): seq<Write> {
    if items == [] then [] else
    (if key in items[0].delta then [Write(items[0].branch, items[0].delta[key])] else []) + Writes(items[1..], key)
  }

  lemma {:induction false} WritesExist(items: seq<Contribution>, key: string)
    ensures Writes(items, key) != [] <==> key in Keys(items)
  {
    if items != [] { WritesExist(items[1..], key); }
  }

  datatype Fold = Fold(merged: Delta, provenance: map<string, seq<string>>)

  function ReducerFor(graph: Graph, key: string): Reducer {
    if key in graph.reducers then graph.reducers[key] else RejectConflict
  }

  /** Only a custom reducer is user code. Its inputs are copied before it is marked, and
      only a gate with `before_start` is asked for it separately. */
  function EnterReducer(ctx: Ctx, region: Region, state: State, completed: nat, items: seq<Contribution>, key: string,
                        log: Log): (r: Flow<()>)
    ensures log <= r.log
  {
    var site := region.Request(AtReducer, Names(items) + [key], completed);
    if !ReducerFor(ctx.graph, key).Custom? then Go(log, ())
    else if !AllCopyable(Writes(items, key)) then Raise(log, Uncopyable)
    else if !ctx.gate.Durable() then Go(log + [Entered(site)], ())
    else Guard(ctx.gate, log, site, state, region.source, region.steps)
  }

  function FoldKey(ctx: Ctx, region: Region, state: State, completed: nat, items: seq<Contribution>, key: string,
                   acc: Fold, log: Log): (r: Flow<Fold>)
    requires key in Keys(items)
    ensures log <= r.log
  {
    WritesExist(items, key);
    var ws := Writes(items, key);
    var (entered, _) :- EnterReducer(ctx, region, state, completed, items, key, log);
    match ReduceField(key, ReducerFor(ctx.graph, key), Field(region.snapshot, key), ws)
    case Failure(error) => Raise(entered, error)
    case Success(v) => Go(entered, Fold(acc.merged[key := v], acc.provenance[key := Branches(ws)]))
  }

  /** Fold every field in ascending order; a stop at a reducer ends the run. */
  function FoldKeys(ctx: Ctx, region: Region, state: State, completed: nat, items: seq<Contribution>, keys: seq<string>,
                    acc: Fold, log: Log): (r: Flow<Fold>)
    requires forall k <- keys :: k in Keys(items)
    ensures log <= r.log
    decreases |keys|
  {
    if keys == [] then Go(log, acc) else
    var (folded, next) :- FoldKey(ctx, region, state, completed, items, keys[0], acc, log);
    FoldKeys(ctx, region, state, completed, items, keys[1..], next, folded)
  }

  // ----- one region -----

  datatype Progress = Progress(state: State, steps: nat)

  function MissingBranch(graph: Graph, branches: seq<string>): (missing: Option<string>)
    ensures missing.None? <==> forall b <- branches :: b in graph.nodes
  {
    if branches == [] then None
    else if branches[0] !in graph.nodes then Some(branches[0])
    else
      assert branches == [branches[0]] + branches[1..];
      MissingBranch(graph, branches[1..])
  }

  function StartEvents(region: Region, n: nat): (events: Log)
    requires n <= |region.branches|
    ensures |events| == n
  {
    seq(n, i requires 0 <= i < n => Observed(NodeStart(region.branches[i], region.steps, region.snapshot)))
  }

  function EndEvents(items: seq<Contribution>, completed: nat, committed: State): (events: Log)
    ensures |events| == |items|
  {
    seq(|items|, i requires 0 <= i < |items| =>
        Observed(NodeEnd(items[i].branch, completed, committed, items[i].delta)))
  }

  function FreshTasks(n: nat): (tasks: seq<Task>)
    ensures |tasks| == n
  {
    seq(n, i => Fresh)
  }

  /** The checks before anything runs, then the announcement of every branch. */
  function OpenRegion(ctx: Ctx, source: string, edge: Edge, state: State, steps: nat, log: Log): (r: Flow<Region>)
    requires edge.FanOut?
    ensures log <= r.log
    ensures r.Go? ==> r.value.In(ctx.graph) && r.value.branches == edge.branches && r.value.steps == steps
  {
    var branches := edge.branches;
    if steps + |branches| > ctx.graph.maxSteps then Raise(log, MaxStepsExceeded(steps, source)) else
    var missing := MissingBranch(ctx.graph, branches);
    if missing.Some? then Raise(log, UnknownNode(missing.value))
    else if !ctx.graph.Routable(edge.next) then Raise(log, UnknownRoute(edge.next))
    else
      var visited := Visit(state, branches);
      if visited.None? then Raise(log, NotIterable) else
      var region := Region(source, branches, steps, ctx.token(steps), visited.value);
      Go(log + [Observed(SuperstepStart(source, edge.next, steps, branches, region.snapshot))]
             + StartEvents(region, |branches|), region)
  }

  function RunRegion(ctx: Ctx, source: string, edge: Edge, state: State, steps: nat, log: Log): (r: Flow<Progress>)
    requires edge.FanOut?
    ensures log <= r.log
    ensures r.Go? ==> steps <= r.value.steps
  {
    var (begun, region) :- OpenRegion(ctx, source, edge, state, steps, log);
    var (allowed, _) :-
      Permit(ctx.gate, begun, region.Request(AtFanOut, region.branches, steps), state, source, steps);
    var (tasks, settled) := SettleAll(ctx, region, FreshTasks(|region.branches|), allowed);
    CloseRegion(ctx, region, edge, state, Outcomes(tasks), settled)
  }

  /** Decide what a settled region amounts to: refusals, start failures, stops and
      interrupts in that order of precedence, then the join. */
  function CloseRegion(ctx: Ctx, region: Region, edge: Edge, state: State, settled: seq<Settlement>, log: Log)
    : (r: Flow<Progress>)
    requires edge.FanOut? && |settled| == |region.branches|
    ensures log <= r.log
    ensures r.Go? ==> region.steps <= r.value.steps
  {
    var admission, starts, stops := AdmissionErrors(settled), StartErrors(settled), StopReasons(settled);
    var paused := FirstInterrupt(settled);
    if admission != [] then Raise(log, admission[0])
    else if starts != [] then
      var refusals := GateRefusals(starts);
      Raise(log, if refusals != [] then refusals[0] else StartsFailed(region.source, starts))
    else if stops != [] then Halt(log, state, region.source, region.steps, stops[0])
    else if paused < |settled| then
      InterruptRun(log, region.snapshot, region.branches[paused], region.steps, region.branches,
                   settled[paused].error.fault)
    else JoinRegion(ctx, region, edge, state, settled, log)
  }

  /** A custom join is user code: it is entered only through the gate. */
  function GuardJoin(ctx: Ctx, region: Region, join: Join, state: State, completed: nat, log: Log): (r: Flow<()>)
    ensures log <= r.log
  {
    if !join.CustomJoin? then Go(log, ())
    else Guard(ctx.gate, log, region.Request(AtJoin, region.branches, completed), state, region.source, region.steps)
  }

  function JoinRegion(ctx: Ctx, region: Region, edge: Edge, state: State, settled: seq<Settlement>, log: Log)
    : (r: Flow<Progress>)
    requires edge.FanOut? && |settled| == |region.branches|
    ensures log <= r.log
    ensures r.Go? ==> region.steps <= r.value.steps
  {
    var completed := region.steps + |Successes(region.branches, settled)|;
    var (joined, _) :- GuardJoin(ctx, region, edge.join, state, completed, log);
    AdmitRegion(ctx, region, edge, state, completed, settled, joined)
  }

  function AdmitRegion(ctx: Ctx, region: Region, edge: Edge, state: State, completed: nat, settled: seq<Settlement>,
                       log: Log): (r: Flow<Progress>)
    requires edge.FanOut? && |settled| == |region.branches| && region.steps <= completed
    ensures log <= r.log
    ensures r.Go? ==> r.value.steps == completed
  {
    match Admit(region.source, edge.join, region.branches, settled)
    case Failure(error) => Raise(log, error)
    case Success(items) => FoldRegion(ctx, region, edge, state, completed, items, log)
  }

  function FoldRegion(ctx: Ctx, region: Region, edge: Edge, state: State, completed: nat, items: seq<Contribution>,
                      log: Log): (r: Flow<Progress>)
    requires edge.FanOut? && region.steps <= completed
    ensures log <= r.log
    ensures r.Go? ==> r.value.steps == completed
  {
    var (allowed, _) :-
      Permit(ctx.gate, log, region.Request(AtReducer, Names(items), completed), state, region.source, region.steps);
    var (folded, fold) :-
      FoldKeys(ctx, region, state, completed, items, SortedKeys(Keys(items)), Fold(map[], map[]), allowed);
    CommitRegion(ctx, region, edge, state, completed, items, fold, folded)
  }

  function CommitRegion(ctx: Ctx, region: Region, edge: Edge, state: State, completed: nat, items: seq<Contribution>,
                        fold: Fold, log: Log): (r: Flow<Progress>)
    requires edge.FanOut?
    ensures log <= r.log
    ensures r.Go? ==> r.value.steps == completed
  {
    var request := CommitRequest(RegionCommit, Names(items), completed, Some(region.source), Sha256(fold.merged),
                                 Some(region.batch));
    var (allowed, _) :- Commit(ctx.gate, log, request, state, region.source, region.steps);
    var committed := Merge(region.snapshot, fold.merged);
    var (settled, failure) := AfterCommit(ctx.gate, allowed, request);
    var published := settled + EndEvents(items, completed, committed)
      + [Observed(SuperstepCommit(region.source, edge.next, completed, Names(items), committed, fold.merged,
                                  fold.provenance))];
    if failure.Some? then Raise(published, failure.value) else Go(published, Progress(committed, completed))
  }

  // ----- routing and the loop -----

  function RouterSite(source: string, steps: nat): DispatchRequest {
    DispatchRequest(AtRouter, [source], steps, Some(source), None)
  }

  /** A selected target is always END or a registered name. */
  function Resolve(graph: Graph, edge: Edge, state: State): (r: Result<string, Error>)
    ensures r.Success? ==> r.value != "" && (r.value == END || r.value in graph.nodes)
  {
    var target :-
      match edge
      case Static(t) => Success(t)
      case FanOut(_, _, _) => Failure(FanOutAsRoute)
      case Conditional(router, _, _) =>
        match router(state)
        case Routes(t) => Success(t)
        case RoutesOther => Failure(RouteNotString)
        case RouterThrows(fault) => Failure(Raised(fault));
    if target == "" then Failure(EmptyRoute)
    else if !graph.Routable(target) then Failure(UnknownRoute(target))
    else Success(target)
  }

  function Route(ctx: Ctx, source: string, edge: Edge, state: State, steps: nat, log: Log): (r: Flow<string>)
    ensures log <= r.log
  {
    var (entered, _) :-
      if edge.Conditional? then Guard(ctx.gate, log, RouterSite(source, steps), state, source, steps)
      else Go(log, ());
    match Resolve(ctx.graph, edge, state)
    case Failure(error) => Raise(entered, error)
    case Success(target) => Go(entered + [Observed(EdgeSelected(source, target, steps, state))], target)
  }

  datatype Turn = Turn(state: State, steps: nat, target: string)

  /** One pass of the loop: the node, its region if any, and the next edge. */
  function TakeTurn(ctx: Ctx, state: State, steps: nat, node: string, log: Log): (r: Flow<Turn>)
    ensures log <= r.log
    ensures r.Go? ==> steps < r.value.steps
  {
    var (ended, published) :- RunNode(ctx, state, steps, node, log);
    var edge := ctx.graph.EdgeFrom(node);
    var (committed, progress) :-
      if edge.FanOut? then RunRegion(ctx, node, edge, published, steps + 1, ended)
      else Go(ended, Progress(published, steps + 1));
    var onward := if edge.FanOut? then Static(edge.next) else edge;
    var (selected, target) :- Route(ctx, node, onward, progress.state, progress.steps, committed);
    Go(selected, Turn(progress.state, progress.steps, target))
  }

  function Loop(ctx: Ctx, state: State, steps: nat, node: string, last: string, log: Log): (r: Flow<()>)
    ensures log <= r.log && !r.Go?
    decreases ctx.graph.maxSteps - steps
  {
    if node == END then Ended(log + [Observed(Done(steps, Merge(state, map[STATUS := Str("done")])))])
    else if steps >= ctx.graph.maxSteps then Raise(log, MaxStepsExceeded(steps, last))
    else
      var (next, turn) :- TakeTurn(ctx, state, steps, node, log);
      Loop(ctx, turn.state, turn.steps, turn.target, node, next)
  }

  lemma LoopUnfolds(ctx: Ctx, state: State, steps: nat, node: string, last: string, log: Log)
    ensures Loop(ctx, state, steps, node, last, log) ==
              if node == END then Ended(log + [Observed(Done(steps, Merge(state, map[STATUS := Str("done")])))])
              else if steps >= ctx.graph.maxSteps then Raise(log, MaxStepsExceeded(steps, last))
              else
                var f := TakeTurn(ctx, state, steps, node, log);
                if f.Go? then Loop(ctx, f.value.state, f.value.steps, f.value.target, node, f.log)
                else f.PropagateFailure<()>()
  {
    hide TakeTurn;
  }

  /** A whole run from `state`. */
  function Run(ctx: Ctx, state: State): (r: Flow<()>)
    ensures !r.Go?
  {
    var (selected, node) :- Route(ctx, START, ctx.graph.EdgeFrom(START), state, 0, []);
    Loop(ctx, state, 0, node, START, selected)
  }

  lemma RunUnfolds(ctx: Ctx, state: State)
    ensures var selected := Route(ctx, START, ctx.graph.EdgeFrom(START), state, 0, []);
            Run(ctx, state) == if selected.Go? then Loop(ctx, state, 0, selected.value, START, selected.log)
                               else selected.PropagateFailure<()>()
  {
    hide Route, Loop;
  }

  /** What a consumer of the run sees. */
  function Obs(log: Log): seq<Observation> {
    if log == [] then [] else
    var last := log[|log| - 1];
    Obs(log[..|log| - 1]) + if last.Observed? then [last.obs] else []
  }
}
