/** Complete mediation: in a gated run nothing the user supplied runs, and nothing is
    published, without an allow decision that covers it. */
module Mediation {
  import opened Values
  import opened Ordering
  import opened Protocol
  import opened Reducers
  import opened Topology
  import opened Engine
  import Grammar

  const ALLOWS: Answer := Says(Allow)

  /** An allow for `request` covers the call `site`: it is that call, or the whole
      branch batch, or the whole fold, the call belongs to. */
  predicate Covers(request: DispatchRequest, site: DispatchRequest) {
    || request == site
    || (request.boundary.AtFanOut? && request.source.Some? && site.boundary.AtNode?
        && (forall n <- site.nodes :: n in request.nodes)
        && request.(boundary := AtNode, nodes := site.nodes) == site)
    || (request.boundary.AtReducer? && request.nodes < site.nodes && request.(nodes := site.nodes) == site)
  }

  predicate MarkPending(log: Log) {
    log != [] && var last := log[|log| - 1]; last.Marked? && last.hook.Completed?
  }

  /** The allows an event leaves in force: an observation ends all of them, and a call uses up
      an allow of its own. */
  function HeldAfter(held: multiset<DispatchRequest>, e: Event): multiset<DispatchRequest> {
    match e
    case Observed(_) => multiset{}
    case Decided(request, answer) => if answer == ALLOWS then held + multiset{request} else held
    case Entered(site) => held - multiset{site}
    case _ => held
  }

  /** The allows taken since the last observation and not used up. */
  function Held(log: Log): multiset<DispatchRequest> {
    if log == [] then multiset{} else HeldAfter(Held(log[..|log| - 1]), log[|log| - 1])
  }

  ghost predicate Permitted(gate: Gate, log: Log, site: DispatchRequest) {
    || gate.NoGate?
    || (gate.Durable() && MarkPending(log) && log[|log| - 1].request == site && site in Held(log))
    || (!gate.Durable() && exists request <- Held(log) :: Covers(request, site))
  }

  /** A commit whose publication is under way, and how many node ends it has shown. */
  datatype Publication = Publication(commit: CommitRequest, ends: nat)

  /** The publication `log` ends in: its allow, perhaps its settlement, and its ends so far. */
  function Publishing(log: Log): Option<Publication> {
    if log == [] then None else
    var front, last := log[..|log| - 1], log[|log| - 1];
    match last
    case CommitDecided(c, answer) => if answer == ALLOWS then Some(Publication(c, 0)) else None
    case Settled(_, _) => Publishing(front)
    case Observed(NodeEnd(_, _, _, _)) =>
      var p := Publishing(front);
      if p.Some? then Some(p.value.(ends := p.value.ends + 1)) else None
    case _ => None
  }

  lemma PublishingSnoc(log: Log, e: Event)
    ensures e.CommitDecided? && e.answer == ALLOWS ==> Publishing(log + [e]) == Some(Publication(e.commit, 0))
    ensures e.Settled? ==> Publishing(log + [e]) == Publishing(log)
    ensures e.Observed? && e.obs.NodeEnd? && Publishing(log).Some? ==>
              Publishing(log + [e]) == Some(Publishing(log).value.(ends := Publishing(log).value.ends + 1))
  {
    assert (log + [e])[..|log|] == log;
  }

  lemma {:induction false} PublishingWasAllowed(log: Log)
    ensures Publishing(log).Some? ==> CommitDecided(Publishing(log).value.commit, ALLOWS) in log
  {
    if log != [] { PublishingWasAllowed(log[..|log| - 1]); }
  }

  /** This end is the next one of the publication: the only one of a node's commit, whose
      digest is that of the delta, or the next branch of a region's commit, all of whose
      fields went into the fold that was hashed. */
  predicate ShowsEnd(p: Publication, node: string, steps: nat, delta: Delta) {
    var c := p.commit;
    && JsonDelta(c.digest.content)
    && match c.boundary
       case NodeCommit => p.ends == 0 && c.nodes == [node] && c.steps + 1 == steps && c.digest == Sha256(delta)
       case RegionCommit =>
         p.ends < |c.nodes| && c.nodes[p.ends] == node && c.steps == steps && delta.Keys <= c.digest.content.Keys
  }

  /** All branch ends were shown, and the commit is of exactly this delta. */
  predicate ShowsCommit(p: Publication, node: string, steps: nat, branches: seq<string>, delta: Delta) {
    var c := p.commit;
    && c.boundary.RegionCommit? && c.source == Some(node) && c.nodes == branches && c.steps == steps
    && p.ends == |branches| && c.digest == Sha256(delta) && JsonDelta(delta)
  }

  ghost predicate Publishable(gate: Gate, log: Log, o: Observation) {
    gate.NoGate? ||
    match o
    case NodeEnd(node, steps, _, delta) => Publishing(log).Some? && ShowsEnd(Publishing(log).value, node, steps, delta)
    case SuperstepCommit(node, _, steps, branches, _, delta, _) =>
      Publishing(log).Some? && ShowsCommit(Publishing(log).value, node, steps, branches, delta)
    case _ => true
  }

  /** What may happen next after `log`. */
  ghost predicate MayFollow(gate: Gate, log: Log, e: Event) {
    && (MarkPending(log) ==> e == Entered(log[|log| - 1].request))
    && match e
       case Entered(site) => Permitted(gate, log, site)
       case Marked(request, _) => gate.Durable() && request in Held(log)
       case Observed(o) => Publishable(gate, log, o)
       case Settled(c, _) => log != [] && log[|log| - 1] == CommitDecided(c, ALLOWS)
       case _ => true
  }

  ghost predicate Mediated(gate: Gate, log: Log) {
    log == [] || (Mediated(gate, log[..|log| - 1]) && MayFollow(gate, log[..|log| - 1], log[|log| - 1]))
  }

  /** Mediated so far, and no start marker still waits for its call. */
  ghost predicate Sound(gate: Gate, log: Log) { Mediated(gate, log) && !MarkPending(log) }

  lemma Snoc(gate: Gate, log: Log, e: Event)
    requires Mediated(gate, log) && MayFollow(gate, log, e)
    ensures Mediated(gate, log + [e])
    ensures MarkPending(log + [e]) <==> e.Marked? && e.hook.Completed?
    ensures Held(log + [e]) == HeldAfter(Held(log), e)
  {
    assert (log + [e])[..|log|] == log;
  }

  lemma {:induction false} MediatedAt(gate: Gate, log: Log, i: nat)
    requires Mediated(gate, log) && i < |log|
    ensures MayFollow(gate, log[..i], log[i])
  {
    if i < |log| - 1 {
      MediatedAt(gate, log[..|log| - 1], i);
      assert log[..|log| - 1][..i] == log[..i];
    }
  }

  // ----- boundaries -----

  lemma AskSound(gate: Gate, log: Log, request: DispatchRequest)
    requires Sound(gate, log)
    ensures var f := Ask(gate, log, request);
            && Sound(gate, f.log) && !f.Ended?
            && (f.Go? && f.value.None? && gate.Gate? ==> Held(f.log) == Held(log) + multiset{request})
            && (!(f.Go? && f.value.None?) ==> Held(f.log) == Held(log))
  {
    hide Mediated, Held;
    if gate.Gate? { Snoc(gate, log, Decided(request, gate.dispatch(log, request))); }
  }

  /** Marking an allowed call, then entering it. */
  lemma MarkThenEnterSound(gate: Gate, log: Log, site: DispatchRequest)
    requires Sound(gate, log)
    requires gate.Gate? ==> exists request <- Held(log) :: Covers(request, site)
    requires gate.Durable() ==> site in Held(log)
    ensures var f := Mark(gate, log, site);
            && !f.Ended?
            && (f.Raise? ==> Sound(gate, f.log))
            && Held(f.log) == Held(log)
            && (f.Go? ==>
                  && Sound(gate, f.log + [Entered(site)])
                  && Held(f.log + [Entered(site)]) == Held(log) - multiset{site})
  {
    hide Mediated, Held;
    var f := Mark(gate, log, site);
    if gate.Durable() {
      Snoc(gate, log, Marked(site, gate.start.value(log, site)));
    }
    if f.Go? { Snoc(gate, f.log, Entered(site)); }
  }

  lemma HaltSound<T>(gate: Gate, log: Log, state: State, node: string, steps: nat, reason: string)
    requires Sound(gate, log)
    ensures Sound(gate, Halt<T>(log, state, node, steps, reason).log)
  {
    hide Mediated;
    var f := Halt<T>(log, state, node, steps, reason);
    if f.Ended? { Snoc(gate, log, f.log[|log|]); }
  }

  lemma PermitSound(gate: Gate, log: Log, request: DispatchRequest, state: State, node: string, steps: nat)
    requires Sound(gate, log)
    ensures var f := Permit(gate, log, request, state, node, steps);
            && Sound(gate, f.log)
            && (f.Go? && gate.Gate? ==> Held(f.log) == Held(log) + multiset{request})
  {
    hide Mediated, Held;
    AskSound(gate, log, request);
    var asked := Ask(gate, log, request);
    if asked.Go? && asked.value.Some? {
      HaltSound<()>(gate, asked.log, state, node, steps, asked.value.value);
    }
  }

  lemma GuardSound(gate: Gate, log: Log, request: DispatchRequest, state: State, node: string, steps: nat)
    requires Sound(gate, log)
    ensures var f := Guard(gate, log, request, state, node, steps);
            Sound(gate, f.log) && (f.Go? && gate.Gate? ==> Held(f.log) == Held(log))
  {
    hide Mediated, Permit, Held;
    PermitSound(gate, log, request, state, node, steps);
    var allowed := Permit(gate, log, request, state, node, steps);
    if allowed.Go? {
      assert Covers(request, request);
      MarkThenEnterSound(gate, allowed.log, request);
    }
  }

  /** After a go-ahead the allow for exactly this request is the last event. */
  lemma CommitSound(gate: Gate, log: Log, request: CommitRequest, state: State, node: string, steps: nat)
    requires Sound(gate, log)
    ensures var f := Commit(gate, log, request, state, node, steps);
            && Sound(gate, f.log)
            && (f.Go? && gate.Gate? ==>
                  JsonDelta(request.digest.content) && f.log == log + [CommitDecided(request, ALLOWS)])
  {
    hide Mediated;
    if gate.Gate? {
      var answer := gate.commit(log, request);
      Snoc(gate, log, CommitDecided(request, answer));
      if answer.Says? && answer.decision.Stop? {
        HaltSound<()>(gate, log + [CommitDecided(request, answer)], state, node, steps, answer.decision.reason);
      }
    }
  }

  lemma AfterCommitSound(gate: Gate, log: Log, request: CommitRequest)
    requires Sound(gate, log)
    requires gate.Gate? ==> log != [] && log[|log| - 1] == CommitDecided(request, ALLOWS)
    ensures var (settled, _) := AfterCommit(gate, log, request);
            Sound(gate, settled) && (gate.Gate? ==> Publishing(settled) == Some(Publication(request, 0)))
  {
    hide Mediated, Publishing;
    if gate.Gate? {
      PublishingSnoc(log[..|log| - 1], CommitDecided(request, ALLOWS));
      assert log == log[..|log| - 1] + [CommitDecided(request, ALLOWS)];
    }
    if gate.Gate? && gate.settle.Some? {
      PublishingSnoc(log, Settled(request, gate.settle.value(log, request)));
      Snoc(gate, log, Settled(request, gate.settle.value(log, request)));
    }
  }

  /** An event that is no call, marker, settlement or publication may follow any quiet log. */
  lemma PlainSound(gate: Gate, log: Log, e: Event)
    requires Sound(gate, log)
    requires e.Left? || (e.Observed? && !e.obs.NodeEnd? && !e.obs.SuperstepCommit?)
    ensures Sound(gate, log + [e])
    ensures e.Left? ==> Held(log + [e]) == Held(log)
  {
    hide Mediated;
    Snoc(gate, log, e);
  }

  // ----- a node -----

  lemma PublishSound(gate: Gate, running: State, steps: nat, node: string, delta: Delta, log: Log)
    requires Sound(gate, log)
    ensures Sound(gate, PublishNode(gate, running, steps, node, delta, log).log)
  {
    hide Mediated, Held, Publishing, Commit, AfterCommit, JsonDelta;
    var request := CommitRequest(NodeCommit, [node], steps, None, Sha256(delta), None);
    CommitSound(gate, log, request, running, node, steps);
    var allowed := Commit(gate, log, request, running, node, steps);
    if allowed.Go? {
      AfterCommitSound(gate, allowed.log, request);
      var settled := AfterCommit(gate, allowed.log, request).0;
      Snoc(gate, settled, Observed(NodeEnd(node, steps + 1, Merge(running, delta), delta)));
    }
  }

  lemma NodeSound(ctx: Ctx, state: State, steps: nat, node: string, log: Log)
    requires Sound(ctx.gate, log)
    ensures Sound(ctx.gate, RunNode(ctx, state, steps, node, log).log)
  {
    hide Mediated;
    var visited := Visit(state, [node]);
    if node in ctx.graph.nodes && visited.Some? {
      var running := visited.value;
      var started := Observed(NodeStart(node, steps, running));
      PlainSound(ctx.gate, log, started);
      GuardSound(ctx.gate, log + [started], NodeSite(node, steps), running, node, steps);
      var entered := Guard(ctx.gate, log + [started], NodeSite(node, steps), running, node, steps);
      if entered.Go? {
        var answer := ctx.graph.nodes[node].call(running);
        var left := Left(NodeSite(node, steps), answer.Delivers?);
        PlainSound(ctx.gate, entered.log, left);
        match answer
        case Delivers(delta) => PublishSound(ctx.gate, running, steps, node, delta, entered.log + [left]);
        case DeliversOther =>
        case NodeThrows(fault) =>
          if fault.Interrupt? {
            InterruptSound<State>(ctx.gate, entered.log + [left], running, node, steps, [], fault);
          }
      }
    }
  }

  lemma InterruptSound<T>(gate: Gate, log: Log, state: State, node: string, steps: nat, branches: seq<string>,
                          fault: Fault)
    requires Sound(gate, log) && fault.Interrupt?
    ensures Sound(gate, InterruptRun<T>(log, state, node, steps, branches, fault).log)
  {
    hide Mediated;
    var f := InterruptRun<T>(log, state, node, steps, branches, fault);
    if f.Ended? { PlainSound(gate, log, f.log[|log|]); }
  }

  // ----- a region -----

  ghost predicate BatchAllowed(gate: Gate, log: Log, region: Region) {
    gate.Gate? ==> region.Request(AtFanOut, region.branches, region.steps) in Held(log)
  }

  /** How many admitted tasks are about to make this call. */
  function Waiting(region: Region, tasks: seq<Task>, site: DispatchRequest): nat
    requires |tasks| <= |region.branches|
  {
    if tasks == [] then 0 else
    var last := |tasks| - 1;
    Waiting(region, tasks[..last], site) + if tasks[last].Admitted? && region.Site(last) == site then 1 else 0
  }

  lemma {:induction false} WaitingUpdate(region: Region, tasks: seq<Task>, i: nat, task: Task, site: DispatchRequest)
    requires i < |tasks| <= |region.branches|
    ensures Waiting(region, tasks[i := task], site)
            + (if tasks[i].Admitted? && region.Site(i) == site then 1 else 0)
         == Waiting(region, tasks, site) + (if task.Admitted? && region.Site(i) == site then 1 else 0)
  {
    var last := |tasks| - 1;
    if i == last {
      assert tasks[i := task][..last] == tasks[..last];
    } else {
      WaitingUpdate(region, tasks[..last], i, task, site);
      assert tasks[i := task][..last] == tasks[..last][i := task];
    }
  }

  lemma {:induction false} WaitingSome(region: Region, tasks: seq<Task>, i: nat)
    requires i < |tasks| <= |region.branches| && tasks[i].Admitted?
    ensures Waiting(region, tasks, region.Site(i)) > 0
  {
    if i < |tasks| - 1 { WaitingSome(region, tasks[..|tasks| - 1], i); }
  }

  lemma {:induction false} NoneWaiting(region: Region, tasks: seq<Task>, site: DispatchRequest)
    requires |tasks| <= |region.branches| && forall t <- tasks :: !t.Admitted?
    ensures Waiting(region, tasks, site) == 0
  {
    if tasks != [] {
      assert tasks[|tasks| - 1] in tasks;
      NoneWaiting(region, tasks[..|tasks| - 1], site);
    }
  }

  /** Every admitted task holds an allow of its own. */
  ghost predicate TasksAllowed(log: Log, region: Region, tasks: seq<Task>)
    requires |tasks| <= |region.branches|
  {
    forall site :: Waiting(region, tasks, site) <= Held(log)[site]
  }

  lemma StepSound(ctx: Ctx, region: Region, i: nat, task: Task, log: Log)
    requires i < |region.branches| && region.In(ctx.graph) && !task.Finished?
    requires Sound(ctx.gate, log) && BatchAllowed(ctx.gate, log, region)
    requires task.Admitted? ==> ctx.gate.Durable() && region.Site(i) in Held(log)
    ensures var (next, stepped) := StepTask(ctx, region, i, task, log);
            var site := region.Site(i);
            && Sound(ctx.gate, stepped) && BatchAllowed(ctx.gate, stepped, region)
            && (next.Admitted? ==> ctx.gate.Durable() && Held(stepped) == Held(log) + multiset{site})
            && (!next.Admitted? ==>
                  Held(stepped) == if next.Running? then Held(log) - multiset{site} else Held(log))
  {
    hide Mediated, Held;
    var site := region.Site(i);
    match task
    case Fresh =>
      if ctx.gate.Durable() {
        AskSound(ctx.gate, log, site);
      } else {
        assert Covers(region.Request(AtFanOut, region.branches, region.steps), site);
        Snoc(ctx.gate, log, Entered(site));
      }
    case Admitted =>
      assert Covers(site, site);
      MarkThenEnterSound(ctx.gate, log, site);
    case Running =>
      PlainSound(ctx.gate, log, Left(site, Call(ctx.graph, region, i).Ok?));
  }

  lemma {:induction false} SettleSound(ctx: Ctx, region: Region, tasks: seq<Task>, log: Log)
    requires |tasks| == |region.branches| && region.In(ctx.graph)
    requires Sound(ctx.gate, log) && BatchAllowed(ctx.gate, log, region)
    requires ctx.gate.Durable() ==> TasksAllowed(log, region, tasks)
    requires !ctx.gate.Durable() ==> forall t <- tasks :: !t.Admitted?
    ensures Sound(ctx.gate, SettleAll(ctx, region, tasks, log).1)
    decreases Work(tasks)
  {
    hide Mediated, Held, StepTask, Waiting, BatchAllowed;
    if !AllFinished(tasks) {
      var i := Choose(tasks, ctx.pick(log));
      var (task, stepped) := StepTask(ctx, region, i, tasks[i], log);
      WorkUpdate(tasks, i, task);
      if tasks[i].Admitted? {
        assert tasks[i] in tasks;
        WaitingSome(region, tasks, i);
      }
      StepSound(ctx, region, i, tasks[i], log);
      if ctx.gate.Durable() { StepKeepsAllows(ctx, region, tasks, i, log); }
      SettleSound(ctx, region, tasks[i := task], stepped);
    }
  }

  lemma StepKeepsAllows(ctx: Ctx, region: Region, tasks: seq<Task>, i: nat, log: Log)
    requires |tasks| == |region.branches| && region.In(ctx.graph) && i < |tasks| && !tasks[i].Finished?
    requires Sound(ctx.gate, log) && BatchAllowed(ctx.gate, log, region) && ctx.gate.Durable()
    requires TasksAllowed(log, region, tasks)
    ensures var (task, stepped) := StepTask(ctx, region, i, tasks[i], log);
            TasksAllowed(stepped, region, tasks[i := task])
  {
    hide Mediated, Held, Waiting, BatchAllowed;
    if tasks[i].Admitted? { WaitingSome(region, tasks, i); }
    StepSound(ctx, region, i, tasks[i], log);
    var (task, stepped) := StepTask(ctx, region, i, tasks[i], log);
    forall site ensures Waiting(region, tasks[i := task], site) <= Held(stepped)[site] {
      WaitingUpdate(region, tasks, i, task, site);
    }
  }

  lemma {:induction false} StartsSound(gate: Gate, log: Log, region: Region, n: nat)
    requires Sound(gate, log) && n <= |region.branches|
    ensures Sound(gate, log + StartEvents(region, n))
  {
    hide Mediated;
    if n == 0 {
      assert log + StartEvents(region, 0) == log;
    } else {
      StartsSound(gate, log, region, n - 1);
      var e := Observed(NodeStart(region.branches[n - 1], region.steps, region.snapshot));
      assert log + StartEvents(region, n) == (log + StartEvents(region, n - 1)) + [e];
      PlainSound(gate, log + StartEvents(region, n - 1), e);
    }
  }

  ghost predicate FoldAllowed(gate: Gate, log: Log, region: Region, completed: nat, items: seq<Contribution>) {
    gate.Gate? ==> region.Request(AtReducer, Names(items), completed) in Held(log)
  }

  lemma EnterReducerSound(ctx: Ctx, region: Region, state: State, completed: nat, items: seq<Contribution>, key: string,
                          log: Log)
    requires Sound(ctx.gate, log) && FoldAllowed(ctx.gate, log, region, completed, items)
    ensures var f := EnterReducer(ctx, region, state, completed, items, key, log);
            Sound(ctx.gate, f.log) && (f.Go? ==> FoldAllowed(ctx.gate, f.log, region, completed, items))
  {
    hide Mediated, Guard, Held;
    var whole := region.Request(AtReducer, Names(items), completed);
    var site := region.Request(AtReducer, Names(items) + [key], completed);
    assert |whole.nodes| < |site.nodes| && Covers(whole, site);
    if ctx.gate.Durable() {
      GuardSound(ctx.gate, log, site, state, region.source, region.steps);
    } else {
      Snoc(ctx.gate, log, Entered(site));
    }
  }

  lemma {:induction false} FoldSound(ctx: Ctx, region: Region, state: State, completed: nat, items: seq<Contribution>,
                                     keys: seq<string>, acc: Fold, log: Log)
    requires forall k <- keys :: k in Keys(items)
    requires Sound(ctx.gate, log) && FoldAllowed(ctx.gate, log, region, completed, items)
    ensures Sound(ctx.gate, FoldKeys(ctx, region, state, completed, items, keys, acc, log).log)
    decreases |keys|
  {
    hide Mediated, EnterReducer, ReduceField, Held, FoldAllowed;
    if keys != [] {
      EnterReducerSound(ctx, region, state, completed, items, keys[0], log);
      var one := FoldKey(ctx, region, state, completed, items, keys[0], acc, log);
      if one.Go? {
        FoldSound(ctx, region, state, completed, items, keys[1..], one.value, one.log);
      }
    }
  }

  lemma {:induction false} EndsSound(gate: Gate, log: Log, items: seq<Contribution>, completed: nat, committed: State,
                                     c: CommitRequest, n: nat)
    requires n <= |items| && Sound(gate, log)
    requires gate.Gate? ==> Publishing(log) == Some(Publication(c, 0)) && JsonDelta(c.digest.content)
    requires c.boundary.RegionCommit? && c.nodes == Names(items) && c.steps == completed
    requires forall item <- items :: item.delta.Keys <= c.digest.content.Keys
    ensures var shown := log + EndEvents(items, completed, committed)[..n];
            Sound(gate, shown) && (gate.Gate? ==> Publishing(shown) == Some(Publication(c, n)))
  {
    hide Mediated, Publishing, JsonDelta;
    var events := EndEvents(items, completed, committed);
    if n == 0 {
      assert log + events[..0] == log;
    } else {
      EndsSound(gate, log, items, completed, committed, c, n - 1);
      var shown := log + events[..n - 1];
      assert log + events[..n] == shown + [events[n - 1]];
      assert items[n - 1] in items && Names(items)[n - 1] == items[n - 1].branch;
      Snoc(gate, shown, events[n - 1]);
      PublishingSnoc(shown, events[n - 1]);
    }
  }

  lemma CommitRegionSound(ctx: Ctx, region: Region, edge: Edge, state: State, completed: nat, items: seq<Contribution>,
                          fold: Fold, log: Log)
    requires edge.FanOut? && Sound(ctx.gate, log) && fold.merged.Keys == Keys(items)
    ensures Sound(ctx.gate, CommitRegion(ctx, region, edge, state, completed, items, fold, log).log)
  {
    hide Mediated, Publishing, JsonDelta, Keys, EndEvents, Commit, AfterCommit;
    var request := CommitRequest(RegionCommit, Names(items), completed, Some(region.source), Sha256(fold.merged),
                                 Some(region.batch));
    CommitSound(ctx.gate, log, request, state, region.source, region.steps);
    var allowed := Commit(ctx.gate, log, request, state, region.source, region.steps);
    if allowed.Go? {
      AfterCommitSound(ctx.gate, allowed.log, request);
      var settled := AfterCommit(ctx.gate, allowed.log, request).0;
      var committed := Merge(region.snapshot, fold.merged);
      var events := EndEvents(items, completed, committed);
      forall item | item in items ensures item.delta.Keys <= fold.merged.Keys { KeysHold(items, item); }
      EndsSound(ctx.gate, settled, items, completed, committed, request, |items|);
      assert events[..|items|] == events;
      Snoc(ctx.gate, settled + events,
           Observed(SuperstepCommit(region.source, edge.next, completed, Names(items), committed, fold.merged,
                                    fold.provenance)));
    }
  }

  lemma {:induction false} KeysHold(items: seq<Contribution>, item: Contribution)
    requires item in items
    ensures item.delta.Keys <= Keys(items)
  {
    if item != items[0] { KeysHold(items[1..], item); }
  }

  lemma FoldRegionSound(ctx: Ctx, region: Region, edge: Edge, state: State, completed: nat, items: seq<Contribution>,
                        log: Log)
    requires edge.FanOut? && region.steps <= completed && Sound(ctx.gate, log)
    ensures Sound(ctx.gate, FoldRegion(ctx, region, edge, state, completed, items, log).log)
  {
    hide Mediated, FoldKeys, CommitRegion, Permit;
    var request := region.Request(AtReducer, Names(items), completed);
    PermitSound(ctx.gate, log, request, state, region.source, region.steps);
    var allowed := Permit(ctx.gate, log, request, state, region.source, region.steps);
    if allowed.Go? {
      var keys := SortedKeys(Keys(items));
      FoldSound(ctx, region, state, completed, items, keys, Fold(map[], map[]), allowed.log);
      var folded := FoldKeys(ctx, region, state, completed, items, keys, Fold(map[], map[]), allowed.log);
      if folded.Go? {
        Grammar.FoldHasShape(ctx, region, state, completed, items, allowed.log);
        CommitRegionSound(ctx, region, edge, state, completed, items, folded.value, folded.log);
      }
    }
  }

  lemma AdmitSound(ctx: Ctx, region: Region, edge: Edge, state: State, completed: nat, settled: seq<Settlement>,
                   log: Log)
    requires edge.FanOut? && |settled| == |region.branches| && region.steps <= completed && Sound(ctx.gate, log)
    ensures Sound(ctx.gate, AdmitRegion(ctx, region, edge, state, completed, settled, log).log)
  {
    hide Mediated;
    var r := Admit(region.source, edge.join, region.branches, settled);
    if r.Success? { FoldRegionSound(ctx, region, edge, state, completed, r.value, log); }
  }

  lemma JoinSound(ctx: Ctx, region: Region, edge: Edge, state: State, settled: seq<Settlement>, log: Log)
    requires edge.FanOut? && |settled| == |region.branches| && Sound(ctx.gate, log)
    ensures Sound(ctx.gate, JoinRegion(ctx, region, edge, state, settled, log).log)
  {
    hide Mediated, AdmitRegion;
    var completed := region.steps + |Successes(region.branches, settled)|;
    GuardSound(ctx.gate, log, region.Request(AtJoin, region.branches, completed), state, region.source, region.steps);
    var joined := GuardJoin(ctx, region, edge.join, state, completed, log);
    if joined.Go? { AdmitSound(ctx, region, edge, state, completed, settled, joined.log); }
  }

  lemma CloseSound(ctx: Ctx, region: Region, edge: Edge, state: State, settled: seq<Settlement>, log: Log)
    requires edge.FanOut? && |settled| == |region.branches| && Sound(ctx.gate, log)
    ensures Sound(ctx.gate, CloseRegion(ctx, region, edge, state, settled, log).log)
  {
    hide Mediated;
    var stops, paused := StopReasons(settled), FirstInterrupt(settled);
    if AdmissionErrors(settled) != [] || StartErrors(settled) != [] {
    } else if stops != [] {
      HaltSound<Progress>(ctx.gate, log, state, region.source, region.steps, stops[0]);
    } else if paused < |settled| {
      InterruptSound<Progress>(ctx.gate, log, region.snapshot, region.branches[paused], region.steps, region.branches,
                               settled[paused].error.fault);
    } else {
      JoinSound(ctx, region, edge, state, settled, log);
    }
  }

  lemma FreshAreAllowed(log: Log, region: Region)
    ensures TasksAllowed(log, region, FreshTasks(|region.branches|))
  {
    hide Held, Waiting;
    forall site ensures Waiting(region, FreshTasks(|region.branches|), site) == 0 {
      NoneWaiting(region, FreshTasks(|region.branches|), site);
    }
  }

  lemma RegionSound(ctx: Ctx, source: string, edge: Edge, state: State, steps: nat, log: Log)
    requires edge.FanOut? && Sound(ctx.gate, log)
    ensures Sound(ctx.gate, RunRegion(ctx, source, edge, state, steps, log).log)
  {
    hide Mediated, MayFollow, SettleAll, CloseRegion, Permit, Held, TasksAllowed;
    var begun := OpenRegion(ctx, source, edge, state, steps, log);
    if begun.Go? {
      var region := begun.value;
      var e := Observed(SuperstepStart(source, edge.next, steps, region.branches, region.snapshot));
      PlainSound(ctx.gate, log, e);
      StartsSound(ctx.gate, log + [e], region, |region.branches|);
      var request := region.Request(AtFanOut, region.branches, steps);
      PermitSound(ctx.gate, begun.log, request, state, source, steps);
      var allowed := Permit(ctx.gate, begun.log, request, state, source, steps);
      if allowed.Go? {
        var tasks := FreshTasks(|region.branches|);
        FreshAreAllowed(allowed.log, region);
        SettleSound(ctx, region, tasks, allowed.log);
        var (done, settled) := SettleAll(ctx, region, tasks, allowed.log);
        CloseSound(ctx, region, edge, state, Outcomes(done), settled);
      }
    }
  }

  // ----- the run -----

  lemma RouteSound(ctx: Ctx, source: string, edge: Edge, state: State, steps: nat, log: Log)
    requires Sound(ctx.gate, log)
    ensures Sound(ctx.gate, Route(ctx, source, edge, state, steps, log).log)
  {
    hide Mediated;
    var site := RouterSite(source, steps);
    GuardSound(ctx.gate, log, site, state, source, steps);
    var entered := if edge.Conditional? then Guard(ctx.gate, log, site, state, source, steps) else Go(log, ());
    var r := Resolve(ctx.graph, edge, state);
    if entered.Go? && r.Success? {
      PlainSound(ctx.gate, entered.log, Observed(EdgeSelected(source, r.value, steps, state)));
    }
  }

  lemma TurnSound(ctx: Ctx, state: State, steps: nat, node: string, log: Log)
    requires Sound(ctx.gate, log)
    ensures Sound(ctx.gate, TakeTurn(ctx, state, steps, node, log).log)
  {
    hide Mediated, RunNode, RunRegion, Route;
    NodeSound(ctx, state, steps, node, log);
    var ended := RunNode(ctx, state, steps, node, log);
    if ended.Go? {
      var edge := ctx.graph.EdgeFrom(node);
      if edge.FanOut? {
        RegionSound(ctx, node, edge, ended.value, steps + 1, ended.log);
        var committed := RunRegion(ctx, node, edge, ended.value, steps + 1, ended.log);
        if committed.Go? {
          RouteSound(ctx, node, Static(edge.next), committed.value.state, committed.value.steps, committed.log);
        }
      } else {
        RouteSound(ctx, node, edge, ended.value, steps + 1, ended.log);
      }
    }
  }

  lemma {:induction false} LoopSound(ctx: Ctx, state: State, steps: nat, node: string, last: string, log: Log)
    requires Sound(ctx.gate, log)
    ensures Sound(ctx.gate, Loop(ctx, state, steps, node, last, log).log)
    decreases ctx.graph.maxSteps - steps
  {
    hide Mediated, TakeTurn;
    if node == END {
      PlainSound(ctx.gate, log, Observed(Done(steps, Merge(state, map[STATUS := Str("done")]))));
    } else if steps < ctx.graph.maxSteps {
      TurnSound(ctx, state, steps, node, log);
      var f := TakeTurn(ctx, state, steps, node, log);
      if f.Go? { LoopSound(ctx, f.value.state, f.value.steps, f.value.target, node, f.log); }
    }
  }

  lemma RunIsMediated(ctx: Ctx, state: State)
    ensures Sound(ctx.gate, Run(ctx, state).log)
  {
    hide Loop, Route;
    assert Sound(ctx.gate, []);
    var edge := ctx.graph.EdgeFrom(START);
    RouteSound(ctx, START, edge, state, 0, []);
    var selected := Route(ctx, START, edge, state, 0, []);
    if selected.Go? { LoopSound(ctx, state, 0, selected.value, START, selected.log); }
  }

  lemma HeldBefore(held: multiset<DispatchRequest>, e: Event, request: DispatchRequest)
    requires request in HeldAfter(held, e) && e != Decided(request, ALLOWS)
    ensures request in held && !e.Observed?
  {
  }

  /** `log[j]` allows `request`, and nothing was observed since. */
  predicate Recent(log: Log, j: nat, request: DispatchRequest) {
    j < |log| && log[j] == Decided(request, ALLOWS) && forall k :: j < k < |log| ==> !log[k].Observed?
  }

  lemma RecentSnoc(front: Log, last: Event, j: nat, request: DispatchRequest)
    requires Recent(front, j, request) && !last.Observed?
    ensures Recent(front + [last], j, request)
  {
  }

  lemma JustNow(front: Log, request: DispatchRequest)
    ensures Recent(front + [Decided(request, ALLOWS)], |front|, request)
  {
  }

  /** An allow held is taken after the last observation. */
  lemma {:induction false} HeldIsRecent(log: Log, request: DispatchRequest) returns (j: nat)
    requires request in Held(log)
    ensures Recent(log, j, request)
  {
    hide HeldAfter, Recent;
    var front, last := log[..|log| - 1], log[|log| - 1];
    assert log == front + [last];
    if last == Decided(request, ALLOWS) {
      j := |log| - 1;
      JustNow(front, request);
    } else {
      HeldBefore(Held(front), last, request);
      j := HeldIsRecent(front, request);
      RecentSnoc(front, last, j, request);
    }
  }

  /** The call needs an allow of its own: it is no branch of a batch and no reducer of a fold,
      or it is marked. */
  predicate Individual(gate: Gate, site: DispatchRequest) {
    gate.Durable() || !(site.boundary.AtReducer? || (site.boundary.AtNode? && site.source.Some?))
  }

  function Allows(log: Log, site: DispatchRequest): nat {
    if log == [] then 0 else
    Allows(log[..|log| - 1], site) + if log[|log| - 1] == Decided(site, ALLOWS) then 1 else 0
  }

  function Entries(log: Log, site: DispatchRequest): nat {
    if log == [] then 0 else
    Entries(log[..|log| - 1], site) + if log[|log| - 1] == Entered(site) then 1 else 0
  }

  lemma OwnAllow(gate: Gate, log: Log, site: DispatchRequest)
    requires gate.Gate? && Permitted(gate, log, site) && Individual(gate, site)
    ensures site in Held(log)
  {
    hide Held;
  }

  /** Every individual call used up an allow of its own. */
  lemma {:induction false} AllowsAreUsedUp(gate: Gate, log: Log, site: DispatchRequest)
    requires gate.Gate? && Mediated(gate, log) && Individual(gate, site)
    ensures Entries(log, site) + Held(log)[site] <= Allows(log, site)
  {
    hide Permitted, Individual;
    if log != [] {
      var front, last := log[..|log| - 1], log[|log| - 1];
      AllowsAreUsedUp(gate, front, site);
      if last == Entered(site) { OwnAllow(gate, front, site); }
    }
  }

  /** `log[j]` is an allow that covers the call at `i`, taken after the last observation before it. */
  predicate JustAllowed(log: Log, j: nat, i: nat)
    requires i < |log| && log[i].Entered?
  {
    && j < i && log[j].Decided? && log[j].answer == ALLOWS && Covers(log[j].request, log[i].site)
    && forall k :: j < k < i ==> !log[k].Observed?
  }

  /** In every gated run, under every interleaving: control enters a user callable only after
      an allow that covers it, with no observation between the two. A call that is no branch
      of an allowed batch and no reducer of an allowed fold uses up an allow for exactly this
      call: it is called less often than it was allowed. With `before_start` this holds of
      every call, which then comes right after the completed marker of the same request. */
  lemma EveryCallIsAllowed(ctx: Ctx, state: State, i: nat)
    requires ctx.gate.Gate? && i < |Run(ctx, state).log| && Run(ctx, state).log[i].Entered?
    ensures var log := Run(ctx, state).log;
            && (exists j: nat :: JustAllowed(log, j, i))
            && (Individual(ctx.gate, log[i].site) ==>
                  && Entries(log[..i], log[i].site) < Allows(log[..i], log[i].site)
                  && exists j: nat :: JustAllowed(log, j, i) && log[j].request == log[i].site)
            && (ctx.gate.Durable() ==> 0 < i && log[i - 1] == Marked(log[i].site, Completed))
  {
    hide Run, Mediated, Held, Covers, Individual, Entries, Allows, Recent, JustAllowed;
    RunIsMediated(ctx, state);
    var log := Run(ctx, state).log;
    var site := log[i].site;
    MediatedAt(ctx.gate, log, i);
    assert Covers(site, site) by { CoversItself(site); }
    var request := if ctx.gate.Durable() then site else var r :| r in Held(log[..i]) && Covers(r, site); r;
    var j := HeldIsRecent(log[..i], request);
    CallAt(log, j, i, request);
    if Individual(ctx.gate, site) {
      OwnAllow(ctx.gate, log[..i], site);
      MediatedPrefix(ctx.gate, log, i);
      AllowsAreUsedUp(ctx.gate, log[..i], site);
      var own := HeldIsRecent(log[..i], site);
      CallAt(log, own, i, site);
    }
    if ctx.gate.Durable() { assert log[..i][i - 1] == log[i - 1]; }
  }

  lemma CoversItself(site: DispatchRequest)
    ensures Covers(site, site)
  {
  }

  lemma CallAt(log: Log, j: nat, i: nat, request: DispatchRequest)
    requires i < |log| && log[i].Entered? && Recent(log[..i], j, request) && Covers(request, log[i].site)
    ensures JustAllowed(log, j, i) && log[j].request == request
  {
    forall k | j < k < i ensures !log[k].Observed? { assert log[..i][k] == log[k]; }
  }

  lemma {:induction false} MediatedPrefix(gate: Gate, log: Log, i: nat)
    requires Mediated(gate, log) && i <= |log|
    ensures Mediated(gate, log[..i])
  {
    if i < |log| {
      MediatedPrefix(gate, log[..|log| - 1], i);
      assert log[..|log| - 1][..i] == log[..i];
    } else {
      assert log[..i] == log;
    }
  }

  /** Completed start markers and calls match one to one: each marker is directly
      followed by the call it announces. */
  lemma EveryMarkerIsFollowedByItsCall(ctx: Ctx, state: State, i: nat)
    requires i < |Run(ctx, state).log|
    requires Run(ctx, state).log[i].Marked? && Run(ctx, state).log[i].hook.Completed?
    ensures var log := Run(ctx, state).log;
            i + 1 < |log| && log[i + 1] == Entered(log[i].request)
  {
    hide Run, Mediated;
    RunIsMediated(ctx, state);
    var log := Run(ctx, state).log;
    assert i + 1 < |log|;
    MediatedAt(ctx.gate, log, i + 1);
    assert log[..i + 1][i] == log[i];
  }

  /** In every gated run, what is published is what was allowed: a node's end directly follows
      the allowed commit (and its settlement) whose digest is that of exactly its delta; a
      region's ends follow theirs one by one in the order of its nodes, each writing only
      fields of the hashed fold, and then the commit of exactly that fold. */
  lemma EveryPublicationIsAllowed(ctx: Ctx, state: State, i: nat)
    requires ctx.gate.Gate? && i < |Run(ctx, state).log| && Run(ctx, state).log[i].Observed?
    ensures var log := Run(ctx, state).log;
            && Publishable(ctx.gate, log[..i], log[i].obs)
            && (log[i].obs.NodeEnd? || log[i].obs.SuperstepCommit? ==>
                  Publishing(log[..i]).Some? && CommitDecided(Publishing(log[..i]).value.commit, ALLOWS) in log[..i])
  {
    hide Run, Mediated, Publishing;
    RunIsMediated(ctx, state);
    MediatedAt(ctx.gate, Run(ctx, state).log, i);
    PublishingWasAllowed(Run(ctx, state).log[..i]);
  }

  /** A settlement hook runs directly after the allow of the same commit request. */
  lemma EverySettlementFollowsItsCommit(ctx: Ctx, state: State, i: nat)
    requires i < |Run(ctx, state).log| && Run(ctx, state).log[i].Settled?
    ensures var log := Run(ctx, state).log;
            0 < i && log[i - 1] == CommitDecided(log[i].commit, ALLOWS)
  {
    hide Run, Mediated;
    RunIsMediated(ctx, state);
    var log := Run(ctx, state).log;
    MediatedAt(ctx.gate, log, i);
    assert log[..i][|log[..i]| - 1] == log[i - 1];
  }
}
