/** What the conduct of runs means for the gate, for routers and for nodes: their answers,
    and nothing else, decide how a run goes on. */
module Verdicts {
  import opened Values
  import opened Ordering
  import opened Protocol
  import opened Reducers
  import opened Topology
  import opened Engine
  import opened Origins
  import opened Conduct
  import Obedience

  /** Single nodes are registered and were given a state; routers belong to conditional edges;
      what concerns a region happens within one. */
  predicate WellPlaced(ctx: Ctx, log: Log, e: Event) {
    && (match RequestOf(e)
        case None => true
        case Some(q) =>
          match q.boundary
          case AtNode =>
            OfBranch(q) || (|q.nodes| == 1 && q.nodes[0] in ctx.graph.nodes && q.nodes[0] in Given(log))
          case AtRouter =>
            |q.nodes| == 1 && q.nodes[0] in ctx.graph.edges && ctx.graph.edges[q.nodes[0]].Conditional?
          case AtFanOut => Opened(log).Some?
          case _ => Opened(log).Some? && Concluded(ctx, log).Some?)
    && (e.CommitDecided? ==>
          match e.commit.boundary
          case NodeCommit => |e.commit.nodes| == 1 && e.commit.nodes[0] in Given(log)
          case RegionCommit => Opened(log).Some? && Concluded(ctx, log).Some?)
    && (e.Observed? && e.obs.SuperstepStart? ==> e.obs.node in ctx.graph.edges && ctx.graph.edges[e.obs.node].FanOut?)
    && (e.Observed? && e.obs.EdgeSelected? ==> e.obs.target == END || e.obs.target in ctx.graph.nodes)
    && (e.Observed? && e.obs.NodeStart? ==>
          e.obs.node in Given(log) && (Opened(log).None? ==> e.obs.node in ctx.graph.nodes))
  }

  /** The last event is well placed, and so are all before it. */
  ghost predicate Placed(ctx: Ctx, log: Log) { log == [] || WellPlaced(ctx, log, log[|log| - 1]) }

  lemma {:induction false} AllPlaced(ctx: Ctx, initial: State, log: Log)
    requires Lawful(ctx, initial, log)
    ensures Placed(ctx, log)
  {
    hide Given, Published, Opened, Hooked;
    if log != [] {
      var front, e := log[..|log| - 1], log[|log| - 1];
      assert log == front + [e];
      AllPlaced(ctx, initial, front);
      Reads(initial, front, e);
      NextIsPlaced(ctx, initial, front, e);
    }
  }

  // ----- what a region may emit -----

  /** The event belongs to a region. */
  predicate Regional(e: Event) {
    match e
    case Observed(o) => o.NodeStart? || o.NodeEnd? || o.SuperstepCommit? || o.Stopped? || o.Interrupted?
    case CommitDecided(c, _) => c.boundary.RegionCommit?
    case Settled(_, _) => false
    case Left(q, _) => OfBranch(q)
    case _ =>
      var q := RequestOf(e).value;
      OfBranch(q) || q.boundary.AtFanOut? || q.boundary.AtJoin? || q.boundary.AtReducer?
  }

  /** What the event says the gate answered is what the gate answers to the log so far. */
  predicate IsTheGates(gate: Gate, log: Log, e: Event) {
    match e
    case Decided(q, answer) => gate.Gate? && answer == gate.dispatch(log, q)
    case Marked(q, hook) => gate.Durable() && hook == gate.start.value(log, q)
    case CommitDecided(c, answer) => gate.Gate? && answer == gate.commit(log, c)
    case Settled(c, hook) => gate.Gate? && gate.settle.Some? && hook == gate.settle.value(log, c)
    case _ => true
  }

  /** The event comes only once all branches of its region have settled. */
  predicate Late(e: Event) {
    match RequestOf(e)
    case Some(q) => q.boundary.AtJoin? || q.boundary.AtReducer?
    case None => e.CommitDecided? && e.commit.boundary.RegionCommit?
  }

  /** What is due is an event of the region the log is in, if it is an event. */
  predicate StaysInside(ctx: Ctx, log: Log, due: Due) {
    due.Emit? ==>
      && Regional(due.e) && Opened(log).Some? && IsTheGates(ctx.gate, log, due.e)
      && (Late(due.e) ==> Concluded(ctx, log).Some?)
  }

  lemma EndingIsInside(ctx: Ctx, log: Log, c: Closed, items: seq<Contribution>, n: nat)
    requires Opened(log).Some? && Concluded(ctx, log) == Some(c)
    ensures StaysInside(ctx, log, Ending(ctx, c, items, n))
    ensures StaysInside(ctx, log, Sealing(ctx, log, c, items))
  {
    hide Opened, Concluded, Folded, Keys, SortedKeys;
  }

  lemma {:induction false} FoldingIsInside(ctx: Ctx, log: Log, c: Closed, items: seq<Contribution>, keys: seq<string>)
    requires Opened(log).Some? && Concluded(ctx, log) == Some(c)
    ensures StaysInside(ctx, log, Folding(ctx, log, c, items, keys))
    ensures keys != [] ==> StaysInside(ctx, log, Reducing(ctx, log, c, items, keys))
  {
    hide Opened, Concluded, Reduced, Sealing, Writes, AllCopyable;
    if keys == [] {
      EndingIsInside(ctx, log, c, items, 0);
    } else {
      FoldingIsInside(ctx, log, c, items, keys[1..]);
    }
  }

  lemma AdmittingIsInside(ctx: Ctx, log: Log, c: Closed)
    requires Opened(log).Some? && Concluded(ctx, log) == Some(c)
    ensures StaysInside(ctx, log, Admitting(ctx, log, c))
  {
    hide Opened, Concluded, Admit, Folding, Keys, SortedKeys;
    if c.Admitted().Success? {
      FoldingIsInside(ctx, log, c, c.Admitted().value, SortedKeys(Keys(c.Admitted().value)));
    }
  }

  lemma ClosingIsInside(ctx: Ctx, initial: State, log: Log, c: Closed)
    requires Opened(log).Some? && Concluded(ctx, log) == Some(c)
    ensures StaysInside(ctx, log, Closing(ctx, initial, log, c))
  {
    hide Opened, Concluded, Admitting, Earliest, Published, Noted, StartErrors;
    AdmittingIsInside(ctx, log, c);
  }

  lemma SteppingIsInside(ctx: Ctx, initial: State, log: Log)
    ensures StaysInside(ctx, log, Stepping(ctx, initial, log))
    ensures StaysInside(ctx, log, Announcing(ctx, initial, log))
  {
    hide Opened, Closing, Standings, Snapshot;
    if Concluded(ctx, log).Some? { ClosingIsInside(ctx, initial, log, Concluded(ctx, log).value); }
  }

  /** Custom joins and reducers are asked within a region only. */
  lemma DecidingIsInside(ctx: Ctx, log: Log, q: DispatchRequest)
    ensures StaysInside(ctx, log, Publishing(ctx, log)) && StaysInside(ctx, log, Deciding(ctx, log, q))
    ensures q.boundary.AtReducer? ==> StaysInside(ctx, log, FoldAllowed(ctx, log, q))
  {
    hide Opened, Admitting, Ending, Folding, Reducing, Standings, Snapshot, Beyond, Ends, Keys, SortedKeys, Admit;
    match Concluded(ctx, log)
    case None =>
    case Some(c) =>
      AdmittingIsInside(ctx, log, c);
      match c.Admitted()
      case Failure(_) =>
      case Success(items) =>
        var keys := SortedKeys(Keys(items));
        EndingIsInside(ctx, log, c, items, |Ends(log)|);
        FoldingIsInside(ctx, log, c, items, keys);
        if q.nodes != [] {
          var key := q.nodes[|q.nodes| - 1];
          FoldingIsInside(ctx, log, c, items, [key] + Beyond(keys, key));
        }
  }

  lemma InsideIsPlaced(ctx: Ctx, initial: State, log: Log, e: Event)
    requires Regional(e) && Opened(log).Some? && (Late(e) ==> Concluded(ctx, log).Some?)
    ensures WellPlaced(ctx, log + [e], e)
  {
    hide Given, Published, Opened, Hooked, Concluded;
    Reads(initial, log, e);
    if Late(e) { ConcludedStays(ctx, initial, log, e); }
  }

  lemma ConcludedStays(ctx: Ctx, initial: State, log: Log, e: Event)
    requires Late(e) || (RequestOf(e).Some? && !OfBranch(RequestOf(e).value))
    ensures Concluded(ctx, log + [e]) == Concluded(ctx, log)
  {
    hide Given, Published, Opened, Concluded;
    Obedience.Quietly(ctx, initial, log, e);
  }

  lemma NextIsPlaced(ctx: Ctx, initial: State, log: Log, e: Event)
    requires Placed(ctx, log) && Proper(ctx, initial, log, e)
    ensures WellPlaced(ctx, log + [e], e)
  {
    hide Given, Published, Opened, Hooked, Noted, Rule, Placed, WellPlaced, Regional;
    if StaysInside(ctx, log, Rule(ctx, initial, log)) {
      InsideIsPlaced(ctx, initial, log, e);
    } else if e.Observed? {
      ShownIsPlaced(ctx, initial, log, e);
    } else if e.CommitDecided? {
      CommitIsPlaced(ctx, initial, log, e);
    } else if e.Decided? {
      DecisionIsPlaced(ctx, initial, log, e);
    } else if e.Marked? || e.Settled? {
      MarkIsPlaced(ctx, initial, log, e);
    } else {
      CallIsPlaced(ctx, initial, log, e);
    }
  }

  /** Whatever these make due is an event of the region the log is in. */
  lemma RuleIsInside(ctx: Ctx, initial: State, log: Log)
    ensures StaysInside(ctx, log, Stepping(ctx, initial, log)) && StaysInside(ctx, log, Announcing(ctx, initial, log))
    ensures StaysInside(ctx, log, Publishing(ctx, log))
    ensures forall q :: StaysInside(ctx, log, Deciding(ctx, log, q))
    ensures forall q: DispatchRequest :: q.boundary.AtReducer? ==> StaysInside(ctx, log, FoldAllowed(ctx, log, q))
  {
    hide Stepping, Announcing, Publishing, Deciding, FoldAllowed, StaysInside;
    SteppingIsInside(ctx, initial, log);
    DecidingIsInside(ctx, log, DispatchRequest(AtJoin, [], 0, None, None));
    forall q: DispatchRequest ensures StaysInside(ctx, log, Deciding(ctx, log, q))
      ensures q.boundary.AtReducer? ==> StaysInside(ctx, log, FoldAllowed(ctx, log, q))
    {
      DecidingIsInside(ctx, log, q);
    }
  }

  lemma ShownIsPlaced(ctx: Ctx, initial: State, log: Log, e: Event)
    requires Placed(ctx, log) && Proper(ctx, initial, log, e) && !StaysInside(ctx, log, Rule(ctx, initial, log))
    requires e.Observed?
    ensures WellPlaced(ctx, log + [e], e)
  {
    hide Given, Published, Opened, Hooked, Noted, Stepping, Announcing, Publishing, Deciding, FoldAllowed, Regional,
         IsTheGates, Late, Concluded;
    Reads(initial, log, e);
    RuleIsInside(ctx, initial, log);
  }

  lemma CommitIsPlaced(ctx: Ctx, initial: State, log: Log, e: Event)
    requires Placed(ctx, log) && Proper(ctx, initial, log, e) && !StaysInside(ctx, log, Rule(ctx, initial, log))
    requires e.CommitDecided?
    ensures WellPlaced(ctx, log + [e], e)
  {
    hide Given, Published, Opened, Hooked, Noted, Stepping, Announcing, Publishing, Deciding, FoldAllowed, Regional,
         IsTheGates, Late, Concluded;
    Reads(initial, log, e);
    RuleIsInside(ctx, initial, log);
  }

  lemma DecisionIsPlaced(ctx: Ctx, initial: State, log: Log, e: Event)
    requires Placed(ctx, log) && Proper(ctx, initial, log, e) && !StaysInside(ctx, log, Rule(ctx, initial, log))
    requires e.Decided?
    ensures WellPlaced(ctx, log + [e], e)
  {
    hide Given, Published, Opened, Hooked, Noted, Stepping, Announcing, Publishing, Deciding, FoldAllowed, Regional,
         IsTheGates, Late, Concluded;
    Reads(initial, log, e);
    RuleIsInside(ctx, initial, log);
  }

  lemma MarkIsPlaced(ctx: Ctx, initial: State, log: Log, e: Event)
    requires Placed(ctx, log) && Proper(ctx, initial, log, e) && !StaysInside(ctx, log, Rule(ctx, initial, log))
    requires e.Marked? || e.Settled?
    ensures WellPlaced(ctx, log + [e], e)
  {
    hide Given, Published, Opened, Hooked, Noted, Stepping, Announcing, Publishing, Deciding, FoldAllowed, Regional,
         IsTheGates, Late, Concluded;
    Reads(initial, log, e);
    RuleIsInside(ctx, initial, log);
    if RequestOf(e).Some? && !OfBranch(RequestOf(e).value) { ConcludedStays(ctx, initial, log, e); }
  }


  lemma CallIsPlaced(ctx: Ctx, initial: State, log: Log, e: Event)
    requires Placed(ctx, log) && Proper(ctx, initial, log, e) && !StaysInside(ctx, log, Rule(ctx, initial, log))
    requires e.Entered? || e.Left?
    ensures WellPlaced(ctx, log + [e], e)
  {
    hide Given, Published, Opened, Hooked, Noted, Stepping, Announcing, Publishing, Deciding, FoldAllowed, Regional,
         IsTheGates, Late, Concluded;
    Reads(initial, log, e);
    RuleIsInside(ctx, initial, log);
    if RequestOf(e).Some? && !OfBranch(RequestOf(e).value) { ConcludedStays(ctx, initial, log, e); }
  }
  /** At every moment of every run what was due came next, and it ended as was due. */
  lemma EveryEventIsDue(ctx: Ctx, initial: State, i: nat)
    requires ctx.graph.Valid()
    requires i <= |Run(ctx, initial).log|
    ensures var r := Run(ctx, initial);
            && (i < |r.log| ==> Proper(ctx, initial, r.log[..i], r.log[i]) && Placed(ctx, r.log[..i + 1]))
            && (i == |r.log| ==>
                  && (r.Ended? ==> Rule(ctx, initial, r.log).Over?)
                  && (r.Raise? ==> Rule(ctx, initial, r.log) == Fail(r.error)))
  {
    hide Run, Proper, Rule, Placed, Lawful;
    Obedience.RunFits(ctx, initial);
    var log := Run(ctx, initial).log;
    if i < |log| {
      Obedience.LawfulAt(ctx, initial, log, i);
      if i + 1 < |log| { Obedience.LawfulAt(ctx, initial, log, i + 1); } else { assert log[..i + 1] == log; }
      AllPlaced(ctx, initial, log[..i + 1]);
    }
  }

  /** After the event at `i` the run raises `error` and nothing else happens. */
  ghost predicate EndsWith(r: Flow<()>, i: nat, error: Error) { r.Raise? && r.error == error && i + 1 == |r.log| }

  /** After the event at `i` comes exactly `e`. */
  ghost predicate GoesOn(r: Flow<()>, i: nat, e: Event) { i + 1 < |r.log| && r.log[i + 1] == e }

  /** What is due after the event at `i` is what happens. */
  lemma DueHappens(ctx: Ctx, initial: State, i: nat)
    requires ctx.graph.Valid()
    requires i < |Run(ctx, initial).log|
    ensures var r := Run(ctx, initial);
            match After(ctx, initial, r.log[..i + 1], r.log[i])
            case Emit(e) => GoesOn(r, i, e)
            case Fail(error) => EndsWith(r, i, error)
            case Over => r.Ended? && i + 1 == |r.log|
    ensures Placed(ctx, Run(ctx, initial).log[..i + 1])
  {
    hide Run, After, Placed;
    var log := Run(ctx, initial).log;
    EveryEventIsDue(ctx, initial, i);
    EveryEventIsDue(ctx, initial, i + 1);
    assert log[..i + 1][i] == log[i];
    if i + 1 == |log| { assert log[..i + 1] == log; }
  }

  // ----- routing -----

  /** Every edge that is shown as selected is what the edge of its node says of the state
      published last, which is the state it is shown with: a declared target, the end of a
      region, END where there is no edge, or what the router answered to exactly this state. */
  lemma EverySelectionIsTheEdges(ctx: Ctx, initial: State, i: nat)
    requires ctx.graph.Valid()
    requires i < |Run(ctx, initial).log|
    requires Run(ctx, initial).log[i].Observed? && Run(ctx, initial).log[i].obs.EdgeSelected?
    ensures var log := Run(ctx, initial).log;
            var (node, target, state) := (log[i].obs.node, log[i].obs.target, log[i].obs.state);
            && state == Published(initial, log[..i])
            && (target == END || target in ctx.graph.nodes) && target != ""
            && (node !in ctx.graph.edges ==> target == END)
            && (node in ctx.graph.edges ==>
                  match ctx.graph.edges[node]
                  case Static(next) => target == next
                  case FanOut(_, next, _) => target == next
                  case Conditional(router, _, _) => router(state) == Routes(target))
  {
    hide Run, Given, Opened, Hooked, Noted;
    var log := Run(ctx, initial).log;
    EveryEventIsDue(ctx, initial, i);
    if i > 0 { assert log[..i] == log[..i - 1] + [log[i - 1]]; }
    SelectionIsDue(ctx, initial, log[..i], log[i]);
  }

  lemma SelectionIsDue(ctx: Ctx, initial: State, log: Log, e: Event)
    requires Proper(ctx, initial, log, e) && e.Observed? && e.obs.EdgeSelected?
    ensures var (node, target, state) := (e.obs.node, e.obs.target, e.obs.state);
            && state == Published(initial, log)
            && (target == END || target in ctx.graph.nodes) && target != ""
            && (node !in ctx.graph.edges ==> target == END)
            && (node in ctx.graph.edges ==>
                  match ctx.graph.edges[node]
                  case Static(next) => target == next
                  case FanOut(_, next, _) => target == next
                  case Conditional(router, _, _) => router(state) == Routes(target))
  {
    hide Given, Opened, Hooked, Noted, Stepping, Announcing, Publishing, Deciding, FoldAllowed,
         IsTheGates, Late, Concluded, Unpack;
    RuleIsInside(ctx, initial, log);
  }

  /** A router that gets control is asked about the state published last. What it answers is
      selected next if it is END or a registered name; if it raises, the run raises its very
      fault, and any other answer raises the error that names it. */
  lemma EveryRouterIsObeyed(ctx: Ctx, initial: State, i: nat)
    requires ctx.graph.Valid()
    requires i < |Run(ctx, initial).log|
    requires Run(ctx, initial).log[i].Entered? && Run(ctx, initial).log[i].site.boundary.AtRouter?
    ensures var r := Run(ctx, initial);
            var q, state := r.log[i].site, Published(initial, r.log[..i]);
            && |q.nodes| == 1 && q.nodes[0] in ctx.graph.edges && ctx.graph.edges[q.nodes[0]].Conditional?
            && match ctx.graph.edges[q.nodes[0]].router(state)
               case RouterThrows(fault) => EndsWith(r, i, Raised(fault))
               case RoutesOther => EndsWith(r, i, RouteNotString)
               case Routes(target) =>
                 if target == "" then EndsWith(r, i, EmptyRoute)
                 else if target != END && target !in ctx.graph.nodes then EndsWith(r, i, UnknownRoute(target))
                 else GoesOn(r, i, Observed(EdgeSelected(q.nodes[0], target, q.steps, state)))
  {
    hide Run, Given, Opened, Hooked, Noted, GoesOn, EndsWith;
    var log := Run(ctx, initial).log;
    DueHappens(ctx, initial, i);
    assert log[..i + 1] == log[..i] + [log[i]];
    Reads(initial, log[..i], log[i]);
  }

  // ----- verdicts of the gate -----

  /** The run stops right after the event at `i`, in `base`, for the gate's reason; or raises,
      since the state's metadata is no dict. */
  ghost predicate StopsIn(r: Flow<()>, i: nat, base: State, node: string, reason: string) {
    if base[METADATA].Dict? then
      && r.Ended? && |r.log| == i + 2 && r.log[i + 1].Observed? && r.log[i + 1].obs.Stopped?
      && r.log[i + 1].obs.node == node
      && r.log[i + 1].obs.state ==
           base[STATUS := Str("stopped")]
               [METADATA := Dict(base[METADATA].entries
                                 + map["stop_node" := Str(node), "stop_reason" := Str(reason)])]
    else EndsWith(r, i, NotMapping)
  }

  /** Where a boundary is, and the state a stop there returns: that of the node about to run or
      just run, or the one published last. */
  ghost predicate Where(initial: State, log: Log, q: DispatchRequest, node: string, base: State) {
    match q.boundary
    case AtNode => q.nodes == [node] && node in Given(log) && base == Given(log)[node]
    case AtRouter => q.nodes == [node] && base == Published(initial, log)
    case _ => Opened(log).Some? && node == Opened(log).value.0 && base == Published(initial, log)
  }

  /** Every decision outside concurrent branches is carried out at once: a refusal, garbage or a
      raising gate raises exactly that, naming the nodes asked for; a stop ends the run with
      its reason; an allowed node, router or join gets control, after its start marker if the
      gate keeps one. */
  lemma EveryVerdictIsCarriedOut(ctx: Ctx, initial: State, i: nat)
    requires ctx.graph.Valid()
    requires i < |Run(ctx, initial).log| && Run(ctx, initial).log[i].Decided?
    requires !OfBranch(Run(ctx, initial).log[i].request)
    ensures var r := Run(ctx, initial);
            var q := r.log[i].request;
            match r.log[i].answer
            case Says(Refuse(reason)) => EndsWith(r, i, Refused(reason, q.nodes))
            case Garbage => EndsWith(r, i, NotADecision)
            case Throws(fault) => EndsWith(r, i, Raised(fault))
            case Says(Stop(reason)) =>
              exists node, base :: Where(initial, r.log[..i], q, node, base) && StopsIn(r, i, base, node, reason)
            case Says(Allow) =>
              q.boundary.AtNode? || q.boundary.AtRouter? || q.boundary.AtJoin? ==>
                GoesOn(r, i, if ctx.gate.Durable() then Marked(q, ctx.gate.start.value(r.log[..i + 1], q))
                             else Entered(q))
  {
    hide Run, Given, Opened, Hooked, GoesOn, EndsWith, Published;
    var r := Run(ctx, initial);
    var log, q, answer := r.log, r.log[i].request, r.log[i].answer;
    DueHappens(ctx, initial, i);
    assert log[..i + 1] == log[..i] + [log[i]];
    Reads(initial, log[..i], log[i]);
    if answer.Says? && answer.decision.Stop? {
      var node := if q.boundary.AtNode? || q.boundary.AtRouter? then q.nodes[0] else Opened(log[..i]).value.0;
      var base := if q.boundary.AtNode? then Given(log[..i])[node] else Published(initial, log[..i]);
      assert Where(initial, log[..i], q, node, base);
      StopIsDue(ctx, initial, i, base, node, answer.decision.reason);
    }
  }

  /** A stop that is due ends the run. */
  lemma StopIsDue(ctx: Ctx, initial: State, i: nat, base: State, node: string, reason: string)
    requires ctx.graph.Valid()
    requires i < |Run(ctx, initial).log|
    requires exists steps ::
               After(ctx, initial, Run(ctx, initial).log[..i + 1], Run(ctx, initial).log[i])
               == Halting(base, node, steps, reason)
    ensures StopsIn(Run(ctx, initial), i, base, node, reason)
  {
    hide Run, After, Placed;
    DueHappens(ctx, initial, i);
    if base[METADATA].Dict? {
      DueHappens(ctx, initial, i + 1);
      OverAfterStop(ctx, initial, Run(ctx, initial).log[..i + 2], Run(ctx, initial).log[i + 1]);
    }
  }

  lemma OverAfterStop(ctx: Ctx, initial: State, log: Log, e: Event)
    requires e.Observed? && e.obs.Terminal()
    ensures After(ctx, initial, log, e) == Over
  {
  }

  /** A completed start marker is followed by the call at once; a failed one outside concurrent
      branches ends the run with its own error. */
  lemma EveryMarkerIsCarriedOut(ctx: Ctx, initial: State, i: nat)
    requires ctx.graph.Valid()
    requires i < |Run(ctx, initial).log| && Run(ctx, initial).log[i].Marked?
    ensures var r := Run(ctx, initial);
            var q := r.log[i].request;
            match r.log[i].hook
            case Completed => GoesOn(r, i, Entered(q))
            case Unawaitable => OfBranch(q) || EndsWith(r, i, NotAwaitable)
            case Crashes(fault) => OfBranch(q) || EndsWith(r, i, Raised(fault))
  {
    hide Run, GoesOn, EndsWith, Stepping, Graph.Valid, Placed;
    DueHappens(ctx, initial, i);
  }

  /** Every commit decision is carried out likewise, and right after an allow the settlement
      hook runs, if the gate has one. */
  lemma EveryCommitVerdictIsCarriedOut(ctx: Ctx, initial: State, i: nat)
    requires ctx.graph.Valid()
    requires i < |Run(ctx, initial).log| && Run(ctx, initial).log[i].CommitDecided?
    ensures var r := Run(ctx, initial);
            var c := r.log[i].commit;
            match r.log[i].answer
            case Says(Refuse(reason)) => EndsWith(r, i, Refused(reason, c.nodes))
            case Garbage => EndsWith(r, i, NotADecision)
            case Throws(fault) => EndsWith(r, i, Raised(fault))
            case Says(Stop(reason)) =>
              exists node, base ::
                && (if c.boundary.NodeCommit? then c.nodes == [node] && node in Given(r.log[..i])
                                                   && base == Given(r.log[..i])[node]
                    else Opened(r.log[..i]).Some? && node == Opened(r.log[..i]).value.0
                         && base == Published(initial, r.log[..i]))
                && StopsIn(r, i, base, node, reason)
            case Says(Allow) =>
              ctx.gate.Gate? && ctx.gate.settle.Some? ==>
                GoesOn(r, i, Settled(c, ctx.gate.settle.value(r.log[..i + 1], c)))
  {
    hide Run, Given, Opened, Hooked, GoesOn, EndsWith, Published;
    var r := Run(ctx, initial);
    var log, c, answer := r.log, r.log[i].commit, r.log[i].answer;
    DueHappens(ctx, initial, i);
    assert log[..i + 1] == log[..i] + [log[i]];
    Reads(initial, log[..i], log[i]);
    if answer.Says? && answer.decision.Stop? {
      var node := if c.boundary.NodeCommit? then c.nodes[0] else Opened(log[..i]).value.0;
      var base := if c.boundary.NodeCommit? then Given(log[..i])[node] else Published(initial, log[..i]);
      StopIsDue(ctx, initial, i, base, node, answer.decision.reason);
    }
  }

  /** What the log says the gate answered is what the gate answers to the log so far. */
  lemma EveryAnswerIsTheGates(ctx: Ctx, initial: State, i: nat)
    requires ctx.graph.Valid()
    requires i < |Run(ctx, initial).log|
    ensures var log := Run(ctx, initial).log;
            match log[i]
            case Decided(q, answer) => ctx.gate.Gate? && answer == ctx.gate.dispatch(log[..i], q)
            case Marked(q, hook) => ctx.gate.Durable() && hook == ctx.gate.start.value(log[..i], q)
            case CommitDecided(c, answer) => ctx.gate.Gate? && answer == ctx.gate.commit(log[..i], c)
            case Settled(c, hook) =>
              ctx.gate.Gate? && ctx.gate.settle.Some? && hook == ctx.gate.settle.value(log[..i], c)
            case _ => true
  {
    hide Run, Proper, Placed;
    EveryEventIsDue(ctx, initial, i);
    AnswerIsTheGates(ctx, initial, Run(ctx, initial).log[..i], Run(ctx, initial).log[i]);
  }

  lemma AnswerIsTheGates(ctx: Ctx, initial: State, log: Log, e: Event)
    requires Proper(ctx, initial, log, e)
    ensures IsTheGates(ctx.gate, log, e)
  {
    hide Given, Opened, Hooked, Published, Noted, Stepping, Announcing, Publishing, Deciding, FoldAllowed, Regional;
    RuleIsInside(ctx, initial, log);
  }

  // ----- nodes -----

  /** After the event at `i` what `node` answers to `given` is carried out. */
  ghost predicate Carries(ctx: Ctx, r: Flow<()>, i: nat, node: string, steps: nat, given: State)
    requires i < |r.log| && node in ctx.graph.nodes
  {
    match ctx.graph.nodes[node].call(given)
    case NodeThrows(Interrupt(prompt, payload)) => PausesIn(r, i, given, node, steps, [], prompt, payload)
    case NodeThrows(fault) => EndsWith(r, i, Raised(fault))
    case DeliversOther => EndsWith(r, i, NotADict(node))
    case Delivers(delta) =>
      if !CopyableDelta(delta) then EndsWith(r, i, Uncopyable)
      else if ctx.gate.NoGate? then GoesOn(r, i, Observed(NodeEnd(node, steps + 1, given + delta, delta)))
      else if !JsonDelta(delta) then EndsWith(r, i, NotJson)
      else
        var c := CommitRequest(NodeCommit, [node], steps, None, Sha256(delta), None);
        GoesOn(r, i, CommitDecided(c, ctx.gate.commit(r.log[..i + 1], c)))
  }

  /** A node that was called on its own is asked about the state its start showed, and its
      answer is what happens: an interrupt pauses the run with its prompt and payload, any
      other fault is raised as it is, what is no dict is an error, and a delta is committed
      or published, unless it cannot be. */
  lemma EveryNodeAnswerIsCarriedOut(ctx: Ctx, initial: State, i: nat)
    requires ctx.graph.Valid()
    requires i < |Run(ctx, initial).log|
    requires Run(ctx, initial).log[i].Left? && !OfBranch(Run(ctx, initial).log[i].site)
    ensures var r := Run(ctx, initial);
            var q := r.log[i].site;
            && |q.nodes| == 1 && q.nodes[0] in ctx.graph.nodes && q.nodes[0] in Given(r.log[..i])
            && Carries(ctx, r, i, q.nodes[0], q.steps, Given(r.log[..i])[q.nodes[0]])
  {
    hide Run, Given, Opened, Hooked, EndsWith, Published, Noted, GoesOn, PausesIn, Copyable, JsonDelta;
    var r := Run(ctx, initial);
    var log, q := r.log, r.log[i].site;
    DueHappens(ctx, initial, i);
    EveryEventIsDue(ctx, initial, i);
    LeftIsOfNode(ctx, initial, log[..i], log[i]);
    assert log[..i + 1] == log[..i] + [log[i]];
    Reads(initial, log[..i], log[i]);
    var node, given := q.nodes[0], Given(log[..i])[q.nodes[0]];
    match ctx.graph.nodes[node].call(given)
    case NodeThrows(fault) => if fault.Interrupt? { PauseIsDue(ctx, initial, i, given, node, q.steps, [], fault); }
    case _ =>
  }

  lemma PauseIsDue(ctx: Ctx, initial: State, i: nat, given: State, node: string, steps: nat,
                   branches: seq<string>, fault: Fault)
    requires ctx.graph.Valid()
    requires i < |Run(ctx, initial).log| && fault.Interrupt?
    requires After(ctx, initial, Run(ctx, initial).log[..i + 1], Run(ctx, initial).log[i])
             == Pausing(given, node, steps, branches, fault.prompt, fault.payload)
    ensures PausesIn(Run(ctx, initial), i, given, node, steps, branches, fault.prompt, fault.payload)
  {
    hide Run, After, Placed, Copyable, EndsWith;
    DueHappens(ctx, initial, i);
    if given[METADATA].Dict? && Copyable(fault.prompt) && Copyable(fault.payload) {
      DueHappens(ctx, initial, i + 1);
      OverAfterStop(ctx, initial, Run(ctx, initial).log[..i + 2], Run(ctx, initial).log[i + 1]);
    }
  }

  lemma LeftIsOfNode(ctx: Ctx, initial: State, log: Log, e: Event)
    requires Proper(ctx, initial, log, e) && e.Left?
    ensures OfBranch(e.site) || OfNode(e.site)
  {
    hide Given, Opened, Hooked, Published, Noted, Stepping, Announcing, Publishing, Deciding, FoldAllowed, IsTheGates;
    RuleIsInside(ctx, initial, log);
  }

  /** The run pauses right after the event at `i`, for this interrupt; or raises, since it
      cannot be recorded. */
  ghost predicate PausesIn(r: Flow<()>, i: nat, given: State, node: string, steps: nat, branches: seq<string>,
                           prompt: Value, payload: Value)
  {
    if !given[METADATA].Dict? then EndsWith(r, i, NotMapping)
    else if !Copyable(prompt) || !Copyable(payload) then EndsWith(r, i, Uncopyable)
    else
      && r.Ended? && |r.log| == i + 2
      && GoesOn(r, i, Observed(Interrupted(node, steps, branches,
           given[STATUS := Str("interrupted")]
                [METADATA := Dict(given[METADATA].entries
                                  + map["interrupt_node" := Str(node), "interrupt_prompt" := prompt,
                                        "interrupt_payload" := payload])])))
  }

  // ----- what follows a publication, and a selection -----

  /** After the event at `i`, which selected `target`: the end of the run, with the status set, or
      the start of the node with its name added to the visited ones, unless the budget is spent. */
  ghost predicate Arrives(graph: Graph, r: Flow<()>, i: nat, node: string, target: string, steps: nat, state: State) {
    if target == END then
      r.Ended? && |r.log| == i + 2 && GoesOn(r, i, Observed(Done(steps, state[STATUS := Str("done")])))
    else if steps >= graph.maxSteps then EndsWith(r, i, MaxStepsExceeded(steps, node))
    else
      match Unpack(state[VISITED])
      case None => EndsWith(r, i, NotIterable)
      case Some(before) =>
        GoesOn(r, i, Observed(NodeStart(target, steps, state[VISITED := List(before + [Str(target)])])))
  }

  /** What an edge selected is what the run goes on to. */
  lemma EverySelectionIsFollowed(ctx: Ctx, initial: State, i: nat, node: string, target: string, steps: nat,
                                 state: State)
    requires ctx.graph.Valid()
    requires i < |Run(ctx, initial).log|
    requires Run(ctx, initial).log[i] == Observed(EdgeSelected(node, target, steps, state))
    ensures Arrives(ctx.graph, Run(ctx, initial), i, node, target, steps, state)
  {
    hide Run, EndsWith;
    DueHappens(ctx, initial, i);
    var log := Run(ctx, initial).log;
    if target == END {
      DueHappens(ctx, initial, i + 1);
      OverAfterStop(ctx, initial, log[..i + 2], log[i + 1]);
    }
  }

  /** After the event at `i` the region of `node` is opened, on the state with all branches added
      to the visited ones, if the budget, the branches and the target allow it. */
  ghost predicate Opens(graph: Graph, r: Flow<()>, i: nat, node: string, branches: seq<string>, next: string,
                        steps: nat, state: State)
  {
    if steps + |branches| > graph.maxSteps then EndsWith(r, i, MaxStepsExceeded(steps, node))
    else if exists b <- branches :: b !in graph.nodes then
      exists j :: 0 <= j < |branches| && branches[j] !in graph.nodes
        && (forall l :: 0 <= l < j ==> branches[l] in graph.nodes)
        && EndsWith(r, i, UnknownNode(branches[j]))
    else if next != END && next !in graph.nodes then EndsWith(r, i, UnknownRoute(next))
    else
      match Unpack(state[VISITED])
      case None => EndsWith(r, i, NotIterable)
      case Some(before) =>
        GoesOn(r, i, Observed(SuperstepStart(node, next, steps, branches,
                                             state[VISITED := List(before + Strs(branches))])))
  }

  /** After the event at `i`, which published `node`: what its edge says. */
  ghost predicate LeadsOn(ctx: Ctx, r: Flow<()>, i: nat, node: string, steps: nat, state: State)
    requires i < |r.log|
  {
    if node !in ctx.graph.edges then GoesOn(r, i, Observed(EdgeSelected(node, END, steps, state)))
    else
      match ctx.graph.edges[node]
      case Static(target) =>
        if target == "" then EndsWith(r, i, EmptyRoute)
        else if target != END && target !in ctx.graph.nodes then EndsWith(r, i, UnknownRoute(target))
        else GoesOn(r, i, Observed(EdgeSelected(node, target, steps, state)))
      case Conditional(_, _, _) =>
        var q := DispatchRequest(AtRouter, [node], steps, Some(node), None);
        GoesOn(r, i, if ctx.gate.Gate? then Decided(q, ctx.gate.dispatch(r.log[..i + 1], q)) else Entered(q))
      case FanOut(branches, next, _) => Opens(ctx.graph, r, i, node, branches, next, steps, state)
  }

  /** A node that was published outside a region leads to what its edge says; a settlement hook
      that failed is raised instead. */
  lemma EveryEndLeadsOn(ctx: Ctx, initial: State, i: nat, node: string, steps: nat, state: State, delta: Delta)
    requires ctx.graph.Valid()
    requires i < |Run(ctx, initial).log| && Opened(Run(ctx, initial).log[..i]).None?
    requires Run(ctx, initial).log[i] == Observed(NodeEnd(node, steps, state, delta))
    ensures var r := Run(ctx, initial);
            if i > 0 && r.log[i - 1].Settled? && r.log[i - 1].hook.Unawaitable? then EndsWith(r, i, NotAwaitable)
            else if i > 0 && r.log[i - 1].Settled? && r.log[i - 1].hook.Crashes? then
              EndsWith(r, i, Raised(r.log[i - 1].hook.fault))
            else LeadsOn(ctx, r, i, node, steps, state)
  {
    hide Run, Given, Published, EndsWith, GoesOn, MissingBranch;
    var log := Run(ctx, initial).log;
    DueHappens(ctx, initial, i);
    assert log[..i + 1] == log[..i] + [log[i]];
    Reads(initial, log[..i], log[i]);
    if i > 0 {
      assert log[..i] == log[..i - 1] + [log[i - 1]];
      Reads(initial, log[..i - 1], log[i - 1]);
      EndsAlone(ctx, initial, i);
    }
    if node in ctx.graph.edges && ctx.graph.edges[node].FanOut? {
      UnknownIsFirst(ctx.graph, ctx.graph.edges[node].branches);
    }
  }

  /** Outside a region no two publications follow each other. */
  lemma EndsAlone(ctx: Ctx, initial: State, i: nat)
    requires ctx.graph.Valid()
    requires 0 < i < |Run(ctx, initial).log| && Opened(Run(ctx, initial).log[..i]).None?
    requires Run(ctx, initial).log[i].Observed? && Run(ctx, initial).log[i].obs.NodeEnd?
    ensures var e := Run(ctx, initial).log[i - 1];
            !(e.Observed? && (e.obs.NodeEnd? || e.obs.SuperstepCommit?))
  {
    hide Run, Given, Published, Hooked, Noted;
    EveryEventIsDue(ctx, initial, i);
    var log := Run(ctx, initial).log;
    assert log[..i] == log[..i - 1] + [log[i - 1]];
  }

  lemma {:induction false} UnknownIsFirst(graph: Graph, branches: seq<string>)
    ensures MissingBranch(graph, branches).None? <==> forall b <- branches :: b in graph.nodes
    ensures MissingBranch(graph, branches).Some? ==>
              exists j :: 0 <= j < |branches| && branches[j] !in graph.nodes
                && (forall l :: 0 <= l < j ==> branches[l] in graph.nodes)
                && MissingBranch(graph, branches) == Some(branches[j])
  {
    if branches != [] && branches[0] in graph.nodes {
      var rest := branches[1..];
      assert branches == [branches[0]] + rest;
      UnknownIsFirst(graph, rest);
      if MissingBranch(graph, rest).Some? {
        var j :| 0 <= j < |rest| && rest[j] !in graph.nodes && (forall l :: 0 <= l < j ==> rest[l] in graph.nodes)
                 && MissingBranch(graph, rest) == Some(rest[j]);
        assert branches[j + 1] == rest[j];
        forall l | 0 <= l < j + 1 ensures branches[l] in graph.nodes { if l > 0 { assert branches[l] == rest[l - 1]; } }
      }
    } else if branches != [] {
      assert branches[0] in branches;
    }
  }

  // ----- decisions on concurrent branches -----

  /** What the log tells a branch, and where its task is by now, agree. */
  ghost predicate Heeds(task: Task, e: Event, branch: string) {
    match e
    case Decided(_, Says(Allow)) =>
      !task.Fresh? && (task.Finished? ==> !task.outcome.BranchStopped? && !task.outcome.NotAdmitted?)
    case Decided(_, Says(Stop(reason))) => task == Finished(BranchStopped(reason))
    case Decided(_, Says(Refuse(reason))) => task == Finished(NotAdmitted(Refused(reason, [branch])))
    case Decided(_, Garbage) => task == Finished(NotAdmitted(NotADecision))
    case Decided(_, Throws(fault)) => task == Finished(NotAdmitted(Raised(fault)))
    case Marked(_, Completed) => task.Running? || (task.Finished? && (task.outcome.Ok? || task.outcome.Failed?))
    case Marked(_, Unawaitable) => task == Finished(NotStarted(NotAwaitable))
    case Marked(_, Crashes(fault)) => task == Finished(NotStarted(Raised(fault)))
    case _ => true
  }

  ghost predicate AllHeed(region: Region, tasks: seq<Task>, told: Log)
    requires |tasks| == |region.branches|
  {
    forall i, e :: 0 <= i < |tasks| && e in told && RequestOf(e) == Some(region.Site(i)) ==>
      Heeds(tasks[i], e, region.branches[i])
  }

  /** A task's step concerns its own branch only. */
  lemma StepTells(ctx: Ctx, region: Region, i: nat, task: Task, log: Log)
    requires i < |region.branches| && region.In(ctx.graph) && !task.Finished?
    ensures var (next, stepped) := StepTask(ctx, region, i, task, log);
            forall e <- stepped[|log|..] ::
              RequestOf(e) == Some(region.Site(i)) && Heeds(next, e, region.branches[i])
  {
  }

  lemma StepHeeds(ctx: Ctx, region: Region, i: nat, tasks: seq<Task>, told: Log, log: Log)
    requires |tasks| == |region.branches| && i < |tasks| && region.In(ctx.graph) && !tasks[i].Finished?
    requires Ascending(region.branches) && AllHeed(region, tasks, told)
    ensures var (task, stepped) := StepTask(ctx, region, i, tasks[i], log);
            AllHeed(region, tasks[i := task], told + stepped[|log|..])
  {
    hide StepTask, StrLe;
    StepTells(ctx, region, i, tasks[i], log);
    var (task, stepped) := StepTask(ctx, region, i, tasks[i], log);
    forall j, e | 0 <= j < |tasks| && e in told + stepped[|log|..] && RequestOf(e) == Some(region.Site(j))
      ensures Heeds(tasks[i := task][j], e, region.branches[j])
    {
      assert j < i ==> StrLt(region.branches[j], region.branches[i]);
      assert i < j ==> StrLt(region.branches[i], region.branches[j]);
      if e in told && j == i { HeedsOn(ctx, region, i, tasks[i], e, log); }
    }
  }

  lemma HeedsOn(ctx: Ctx, region: Region, i: nat, task: Task, e: Event, log: Log)
    requires i < |region.branches| && region.In(ctx.graph) && !task.Finished? && Heeds(task, e, region.branches[i])
    ensures Heeds(StepTask(ctx, region, i, task, log).0, e, region.branches[i])
  {
  }

  lemma {:induction false} SettleHeeds(ctx: Ctx, region: Region, tasks: seq<Task>, told: Log, log: Log)
    requires |tasks| == |region.branches| && region.In(ctx.graph) && Ascending(region.branches)
    requires AllHeed(region, tasks, told)
    ensures var (done, settled) := SettleAll(ctx, region, tasks, log);
            AllHeed(region, done, told + settled[|log|..])
    decreases Work(tasks)
  {
    hide StepTask, AllHeed, Ascending;
    if AllFinished(tasks) {
      assert told + log[|log|..] == told;
    } else {
      var i := Choose(tasks, ctx.pick(log));
      var (task, stepped) := StepTask(ctx, region, i, tasks[i], log);
      WorkUpdate(tasks, i, task);
      StepHeeds(ctx, region, i, tasks, told, log);
      SettleHeeds(ctx, region, tasks[i := task], told + stepped[|log|..], stepped);
      var settled := SettleAll(ctx, region, tasks[i := task], stepped).1;
      assert settled[|log|..] == stepped[|log|..] + settled[|stepped|..];
      assert told + stepped[|log|..] + settled[|stepped|..] == told + settled[|log|..];
    }
  }

  /** However branches interleave, each is settled by what the gate decided about it: a stop, a
      refusal with its reason and the branch's name, garbage, a raising gate or a failed start
      marker; only an allowed branch is called. */
  lemma {:induction false} EveryBranchHeedsItsDecision(ctx: Ctx, region: Region, log: Log, done: seq<Task>,
                                                       settled: Log, i: nat, k: nat)
    requires region.In(ctx.graph) && Ascending(region.branches) && i < |region.branches|
    requires (done, settled) == SettleAll(ctx, region, FreshTasks(|region.branches|), log)
    requires |log| <= k < |settled| && RequestOf(settled[k]) == Some(region.Site(i))
    ensures |done| == |region.branches| && Heeds(done[i], settled[k], region.branches[i])
  {
    hide SettleAll, Ascending, StrLt, StrLe, Heeds, AllHeed, RequestOf;
    NothingTold(region);
    SettleHeeds(ctx, region, FreshTasks(|region.branches|), [], log);
    var told := settled[|log|..];
    assert [] + told == told && told[k - |log|] == settled[k];
    HeededAt(region, done, told, i, settled[k]);
  }

  lemma HeededAt(region: Region, tasks: seq<Task>, told: Log, i: nat, e: Event)
    requires |tasks| == |region.branches| && i < |tasks| && AllHeed(region, tasks, told)
    requires e in told && RequestOf(e) == Some(region.Site(i))
    ensures Heeds(tasks[i], e, region.branches[i])
  {
  }

  lemma NothingTold(region: Region)
    ensures AllHeed(region, FreshTasks(|region.branches|), [])
  {
  }
}
