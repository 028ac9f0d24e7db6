/** What the conduct of runs means within a region, branch tasks included: how a region is
    opened, what its settled branches come to, and how its fold is decided and published. */
module RegionVerdicts {
  import opened Values
  import opened Ordering
  import opened Protocol
  import opened Reducers
  import opened Topology
  import opened Engine
  import opened Origins
  import opened Conduct
  import opened Verdicts
  import Obedience
  import JoinLaws

  // ----- a region is opened -----

  /** A log within a region knows its branches and its snapshot. */
  lemma {:induction false} AlwaysCurrent(ctx: Ctx, initial: State, log: Log)
    requires Lawful(ctx, initial, log) && Opened(log).Some?
    ensures Current(ctx, log).Some? && Current(ctx, log).value.source == Opened(log).value.0
  {
    hide Proper, WellPlaced;
    AllPlaced(ctx, initial, log);
    var front, e := log[..|log| - 1], log[|log| - 1];
    assert log == front + [e];
    Reads(initial, front, e);
    if e.Observed? && e.obs.SuperstepStart? {
      StartIsOfRegion(ctx, log, e);
    } else {
      AlwaysCurrent(ctx, initial, front);
      Obedience.CurrentStays(ctx, front, e);
    }
  }

  lemma StartIsOfRegion(ctx: Ctx, log: Log, e: Event)
    requires WellPlaced(ctx, log, e) && e.Observed? && e.obs.SuperstepStart?
    ensures e.obs.node in ctx.graph.edges && ctx.graph.edges[e.obs.node].FanOut?
  {
    hide Given, Opened, Concluded;
  }

  /** All branches of a region are shown to start, in order, on the snapshot its start showed,
      and then the gate decides on the whole batch before anything else happens. */
  lemma EveryBatchIsAsked(ctx: Ctx, initial: State, i: nat)
    requires ctx.graph.Valid()
    requires i < |Run(ctx, initial).log| && Opened(Run(ctx, initial).log[..i + 1]).Some?
    requires Run(ctx, initial).log[i].Observed?
    requires Run(ctx, initial).log[i].obs.SuperstepStart? || Run(ctx, initial).log[i].obs.NodeStart?
    ensures var r := Run(ctx, initial);
            var (source, steps) := Opened(r.log[..i + 1]).value;
            && source in ctx.graph.edges && ctx.graph.edges[source].FanOut? && Snapshot(r.log[..i + 1]).Some?
            && var (branches, n) := (ctx.graph.edges[source].branches, Started(r.log[..i + 1]));
               var q := DispatchRequest(AtFanOut, branches, steps, Some(source), Some(ctx.token(steps)));
               if n < |branches| then
                 GoesOn(r, i, Observed(NodeStart(branches[n], steps, Snapshot(r.log[..i + 1]).value)))
               else ctx.gate.Gate? ==> GoesOn(r, i, Decided(q, ctx.gate.dispatch(r.log[..i + 1], q)))
  {
    hide Run, Opened, Snapshot, Started, Placed, GoesOn, Stepping, Lawful;
    Obedience.RunFits(ctx, initial);
    Obedience.LawfulAt(ctx, initial, Run(ctx, initial).log, i + 1);
    AlwaysCurrent(ctx, initial, Run(ctx, initial).log[..i + 1]);
    DueHappens(ctx, initial, i);
  }

  // ----- what settled branches come to -----

  /** The fold is committed: refused if it cannot be copied or is no JSON for the gate. */
  ghost predicate Seals(ctx: Ctx, r: Flow<()>, i: nat, c: Closed, items: seq<Contribution>, fold: Fold)
    requires i < |r.log|
  {
    var q := CommitRequest(RegionCommit, Names(items), c.Completed(), Some(c.region.source), Sha256(fold.merged),
                           Some(c.region.batch));
    if !CopyableDelta(fold.merged) then EndsWith(r, i, Uncopyable)
    else if ctx.gate.NoGate? then Publishes(r, i, c, items, fold, 0)
    else if !JsonDelta(fold.merged) then EndsWith(r, i, NotJson)
    else GoesOn(r, i, CommitDecided(q, ctx.gate.commit(r.log[..i + 1], q)))
  }

  /** After `n` ends the next admitted branch is shown to end, or the commit; both show the
      snapshot with the fold written over it. */
  ghost predicate Publishes(r: Flow<()>, i: nat, c: Closed, items: seq<Contribution>, fold: Fold, n: nat) {
    var committed := c.region.snapshot + fold.merged;
    c.edge.FanOut? &&
    if n < |items| then GoesOn(r, i, Observed(NodeEnd(items[n].branch, c.Completed(), committed, items[n].delta)))
    else GoesOn(r, i, Observed(SuperstepCommit(c.region.source, c.edge.next, c.Completed(), Names(items), committed,
                                               fold.merged, fold.provenance)))
  }

  /** `fold` is what the declared reducers make of `items`, and who wrote each field. */
  ghost predicate IsFold(graph: Graph, snapshot: State, items: seq<Contribution>, fold: Fold) {
    && FoldedFrom(graph, snapshot, items, fold.merged) && fold.provenance.Keys == Keys(items)
    && forall k <- fold.provenance :: fold.provenance[k] == Branches(Writes(items, k))
  }

  /** The field is written, and its reducer succeeds. */
  ghost predicate Reduces(graph: Graph, snapshot: State, items: seq<Contribution>, key: string) {
    && Writes(items, key) != []
    && ReduceField(key, ReducerFor(graph, key), Field(snapshot, key), Writes(items, key)).Success?
  }

  /** A field without user code whose reducer succeeds. */
  ghost predicate Plain(graph: Graph, snapshot: State, items: seq<Contribution>, key: string) {
    !ReducerFor(graph, key).Custom? && Reduces(graph, snapshot, items, key)
  }

  /** The fold goes on with `keys`, in order: it halts at the first that needs user code, which
      is asked for or entered, or whose reducer fails, which is raised; if there is none, what
      was folded is committed. */
  ghost predicate FoldsOn(ctx: Ctx, r: Flow<()>, i: nat, c: Closed, items: seq<Contribution>, keys: seq<string>)
    requires i < |r.log|
  {
    && (forall n: nat | n < |keys| ::
          (forall m :: 0 <= m < n ==> Plain(ctx.graph, c.region.snapshot, items, keys[m]))
          && !Plain(ctx.graph, c.region.snapshot, items, keys[n]) && Writes(items, keys[n]) != [] ==>
            HaltsAt(ctx, r, i, c, items, keys[n]))
    && ((forall key <- keys :: Plain(ctx.graph, c.region.snapshot, items, key)) ==>
          Seals(ctx, r, i, c, items, Folded(ctx.graph, c.region.snapshot, items, SortedKeys(Keys(items)))))
  }

  ghost predicate HaltsAt(ctx: Ctx, r: Flow<()>, i: nat, c: Closed, items: seq<Contribution>, key: string)
    requires i < |r.log| && Writes(items, key) != []
  {
    var q := DispatchRequest(AtReducer, Names(items) + [key], c.Completed(), Some(c.region.source),
                             Some(c.region.batch));
    if ReducerFor(ctx.graph, key).Custom? then
      if !AllCopyable(Writes(items, key)) then EndsWith(r, i, Uncopyable)
      else GoesOn(r, i, if ctx.gate.Durable() then Decided(q, ctx.gate.dispatch(r.log[..i + 1], q)) else Entered(q))
    else
      match ReduceField(key, ReducerFor(ctx.graph, key), Field(c.region.snapshot, key), Writes(items, key))
      case Failure(error) => EndsWith(r, i, error)
      case Success(_) => true
  }

  /** What is due is what happens. */
  ghost predicate Happens(r: Flow<()>, i: nat, due: Due) {
    match due
    case Emit(e) => GoesOn(r, i, e)
    case Fail(error) => EndsWith(r, i, error)
    case Over => r.Ended? && i + 1 == |r.log|
  }

  lemma {:induction false} FoldingHappens(ctx: Ctx, r: Flow<()>, i: nat, c: Closed, items: seq<Contribution>,
                                          keys: seq<string>)
    requires i < |r.log| && Happens(r, i, Folding(ctx, r.log[..i + 1], c, items, keys)) && c.edge.FanOut?
    ensures FoldsOn(ctx, r, i, c, items, keys)
  {
    hide Folded, ReduceField, Writes, Keys, SortedKeys, GoesOn, EndsWith, CopyableDelta, JsonDelta, JoinLaws.CountOk;
    if keys != [] {
      if Plain(ctx.graph, c.region.snapshot, items, keys[0]) {
        FoldingHappens(ctx, r, i, c, items, keys[1..]);
        assert keys == [keys[0]] + keys[1..];
        forall n: nat | n < |keys| && (forall m :: 0 <= m < n ==> Plain(ctx.graph, c.region.snapshot, items, keys[m]))
                        && !Plain(ctx.graph, c.region.snapshot, items, keys[n]) && Writes(items, keys[n]) != []
          ensures HaltsAt(ctx, r, i, c, items, keys[n])
        {
          assert keys[n] == keys[1..][n - 1];
          assert forall m :: 0 <= m < n - 1 ==> keys[1..][m] == keys[m + 1];
        }
      } else {
        assert keys[0] in keys;
      }
    }
  }

  /** The fold of all fields, none of whose reducers fails, is what the declared reducers make of
      the contributions. */
  lemma FoldedIsTheFold(graph: Graph, snapshot: State, items: seq<Contribution>)
    requires forall k <- Keys(items) :: Reduces(graph, snapshot, items, k)
    ensures IsFold(graph, snapshot, items, Folded(graph, snapshot, items, SortedKeys(Keys(items))))
  {
    hide Reduces, Keys, Folded, FieldFolds, Branches, Writes, SortedKeys;
    var keys := SortedKeys(Keys(items));
    FoldedUpTo(graph, snapshot, items, keys);
  }

  lemma {:induction false} FoldedUpTo(graph: Graph, snapshot: State, items: seq<Contribution>, keys: seq<string>)
    requires forall k <- keys :: Reduces(graph, snapshot, items, k)
    ensures var fold := Folded(graph, snapshot, items, keys);
            && (forall k :: k in fold.merged <==> k in keys) && (forall k :: k in fold.provenance <==> k in keys)
            && (forall k <- keys :: FieldFolds(graph, snapshot, items, k, fold.merged[k]))
            && (forall k <- keys :: fold.provenance[k] == Branches(Writes(items, k)))
  {
    hide ReduceField, Writes;
    if keys != [] {
      var front, last := keys[..|keys| - 1], keys[|keys| - 1];
      assert keys == front + [last];
      FoldedUpTo(graph, snapshot, items, front);
    }
  }

  /** What the join says is carried out: its error is raised; those it admits are asked for at
      once, or folded if there is no gate. */
  ghost predicate Joins(ctx: Ctx, r: Flow<()>, i: nat, c: Closed)
    requires i < |r.log| && c.Valid()
  {
    match Admit(c.region.source, c.edge.join, c.region.branches, c.settled)
    case Failure(error) => EndsWith(r, i, error)
    case Success(items) =>
      var q := DispatchRequest(AtReducer, Names(items), c.Completed(), Some(c.region.source), Some(c.region.batch));
      if ctx.gate.Gate? then GoesOn(r, i, Decided(q, ctx.gate.dispatch(r.log[..i + 1], q)))
      else FoldsOn(ctx, r, i, c, items, SortedKeys(Keys(items)))
  }

  lemma AdmittingHappens(ctx: Ctx, r: Flow<()>, i: nat, c: Closed)
    requires i < |r.log| && c.Valid() && Happens(r, i, Admitting(ctx, r.log[..i + 1], c))
    ensures Joins(ctx, r, i, c)
  {
    hide Admit, Folding, FoldsOn, Keys, SortedKeys, GoesOn, EndsWith, JoinLaws.CountOk;
    match c.Admitted()
    case Failure(_) =>
    case Success(items) =>
      if ctx.gate.NoGate? { FoldingHappens(ctx, r, i, c, items, SortedKeys(Keys(items))); }
  }

  /** The event is the last word on a branch, for now. */
  predicate Touches(e: Event) {
    RequestOf(e).Some? && OfBranch(RequestOf(e).value) && !(e.Marked? && e.hook.Completed?)
  }

  /** Once all branches of a region have settled, what they settled to decides at once: the first
      refused admission is raised, else a refused start, else all failed starts together,
      else the first stop ends the run, else the first interrupt pauses it; else a custom
      join is asked for or entered, and a built-in one decides. */
  ghost predicate Closes(ctx: Ctx, r: Flow<()>, i: nat, c: Closed, state: State, k: nat)
    requires i < |r.log| && c.Valid()
  {
    var (settled, region) := (c.settled, c.region);
    && (JoinLaws.FirstAt(settled, JoinLaws.IsNotAdmitted, k) ==> EndsWith(r, i, settled[k].error))
    && (JoinLaws.NoneAt(settled, JoinLaws.IsNotAdmitted) ==>
          && (JoinLaws.FirstAt(settled, JoinLaws.IsRefusedStart, k) ==> EndsWith(r, i, settled[k].error))
          && (JoinLaws.NoneAt(settled, JoinLaws.IsRefusedStart)
              && JoinLaws.FirstAt(settled, JoinLaws.IsNotStarted, k) ==>
                exists errors :: EndsWith(r, i, StartsFailed(region.source, errors))
                                 && forall e :: e in errors <==> exists o <- settled :: o == NotStarted(e))
          && (JoinLaws.NoneAt(settled, JoinLaws.IsNotStarted) ==>
                && (JoinLaws.FirstAt(settled, JoinLaws.IsBranchStopped, k) ==>
                      StopsIn(r, i, state, region.source, settled[k].reason))
                && (JoinLaws.NoneAt(settled, JoinLaws.IsBranchStopped) ==>
                      && (JoinLaws.FirstAt(settled, JoinLaws.IsPaused, k) ==>
                            var fault := settled[k].error.fault;
                            PausesIn(r, i, region.snapshot, region.branches[k], region.steps, region.branches,
                                     fault.prompt, fault.payload))
                      && (JoinLaws.NoneAt(settled, JoinLaws.IsPaused) ==> Decides(ctx, r, i, c)))))
  }

  ghost predicate Decides(ctx: Ctx, r: Flow<()>, i: nat, c: Closed)
    requires i < |r.log| && c.Valid()
  {
    var q := DispatchRequest(AtJoin, c.region.branches, c.Completed(), Some(c.region.source), Some(c.region.batch));
    if c.edge.join.CustomJoin? then
      GoesOn(r, i, if ctx.gate.Gate? then Decided(q, ctx.gate.dispatch(r.log[..i + 1], q)) else Entered(q))
    else Joins(ctx, r, i, c)
  }

  lemma Firsts(settled: seq<Settlement>, kind: Settlement -> bool, k: nat)
    ensures JoinLaws.FirstAt(settled, kind, k) ==> Earliest(settled, kind) == k < |settled| && kind(settled[k])
    ensures JoinLaws.NoneAt(settled, kind) ==> Earliest(settled, kind) == |settled|
  {
    hide Earliest;
    var i := Earliest(settled, kind);
    if i < |settled| { assert settled[i] in settled; }
  }

  /** What is due after the event at `i` happens. */
  lemma DueIsDone(ctx: Ctx, initial: State, i: nat)
    requires ctx.graph.Valid() && i < |Run(ctx, initial).log|
    ensures Happens(Run(ctx, initial), i, After(ctx, initial, Run(ctx, initial).log[..i + 1], Run(ctx, initial).log[i]))
  {
    hide Run, After, Placed, Graph.Valid;
    DueHappens(ctx, initial, i);
  }

  lemma TouchedIsClosing(ctx: Ctx, initial: State, log: Log, e: Event, c: Closed)
    requires Touches(e) && Concluded(ctx, log) == Some(c)
    ensures c.Valid() && After(ctx, initial, log, e) == Closing(ctx, initial, log, c)
  {
    hide Closing, Standings, Opened, Given, Published, Hooked, Snapshot;
  }

  lemma ClosingHappens(ctx: Ctx, initial: State, i: nat, c: Closed, k: nat)
    requires ctx.graph.Valid() && i < |Run(ctx, initial).log| && c.Valid()
    requires After(ctx, initial, Run(ctx, initial).log[..i + 1], Run(ctx, initial).log[i])
             == Closing(ctx, initial, Run(ctx, initial).log[..i + 1], c)
    ensures Closes(ctx, Run(ctx, initial), i, c, Published(initial, Run(ctx, initial).log[..i + 1]), k)
  {
    hide Run, Graph.Valid, Published, EndsWith, StopsIn, PausesIn, Joins, After, StartErrors, Earliest, Halting,
         Pausing, Admitting, GoesOn, JoinLaws.FirstAt, JoinLaws.NoneAt, JoinLaws.CountOk;
    var r, state, settled := Run(ctx, initial), Published(initial, Run(ctx, initial).log[..i + 1]), c.settled;
    DueIsDone(ctx, initial, i);
    JoinLaws.StartErrorsAt(settled);
    Firsts(settled, JoinLaws.IsNotAdmitted, k);
    Firsts(settled, JoinLaws.IsRefusedStart, k);
    Firsts(settled, JoinLaws.IsNotStarted, k);
    Firsts(settled, JoinLaws.IsBranchStopped, k);
    Firsts(settled, JoinLaws.IsPaused, k);
    if JoinLaws.NoneAt(settled, JoinLaws.IsNotAdmitted) && JoinLaws.NoneAt(settled, JoinLaws.IsRefusedStart)
       && JoinLaws.FirstAt(settled, JoinLaws.IsNotStarted, k) {
      assert EndsWith(r, i, StartsFailed(c.region.source, StartErrors(settled)));
    }
    if JoinLaws.NoneAt(settled, JoinLaws.IsNotAdmitted) && JoinLaws.NoneAt(settled, JoinLaws.IsNotStarted) {
      NoRefusedStart(settled);
      Firsts(settled, JoinLaws.IsRefusedStart, |settled|);
      Firsts(settled, JoinLaws.IsNotStarted, |settled|);
      if JoinLaws.FirstAt(settled, JoinLaws.IsBranchStopped, k) {
        StopIsDue(ctx, initial, i, state, c.region.source, settled[k].reason);
      } else if JoinLaws.NoneAt(settled, JoinLaws.IsBranchStopped) {
        if JoinLaws.FirstAt(settled, JoinLaws.IsPaused, k) {
          PauseIsDue(ctx, initial, i, c.region.snapshot, c.region.branches[k], c.region.steps, c.region.branches,
                     settled[k].error.fault);
        } else if JoinLaws.NoneAt(settled, JoinLaws.IsPaused) && !c.edge.join.CustomJoin? {
          AdmittingHappens(ctx, r, i, c);
        }
      }
    }
  }

  lemma NoRefusedStart(settled: seq<Settlement>)
    requires JoinLaws.NoneAt(settled, JoinLaws.IsNotStarted)
    ensures JoinLaws.NoneAt(settled, JoinLaws.IsRefusedStart)
  {
  }

  lemma EverySettledRegionIsClosed(ctx: Ctx, initial: State, i: nat, c: Closed, k: nat)
    requires ctx.graph.Valid()
    requires i < |Run(ctx, initial).log| && Touches(Run(ctx, initial).log[i])
    requires Concluded(ctx, Run(ctx, initial).log[..i + 1]) == Some(c)
    ensures c.Valid() && Closes(ctx, Run(ctx, initial), i, c, Published(initial, Run(ctx, initial).log[..i + 1]), k)
  {
    hide Run, Graph.Valid, Concluded, Published, Closing, Closes, After, Touches;
    TouchedIsClosing(ctx, initial, Run(ctx, initial).log[..i + 1], Run(ctx, initial).log[i], c);
    ClosingHappens(ctx, initial, i, c, k);
  }

  /** While some branch has not settled, the event loop's choice takes its next step: it is asked
      for if the gate keeps start markers, marked once allowed, and entered; and a branch that
      was entered is left. */
  lemma EveryBranchAdvances(ctx: Ctx, initial: State, i: nat, region: Region)
    requires ctx.graph.Valid()
    requires i < |Run(ctx, initial).log| && Current(ctx, Run(ctx, initial).log[..i + 1]) == Some(region)
    requires var e := Run(ctx, initial).log[i];
             Touches(e) || (e.Decided? && e.request.boundary.AtFanOut? && e.answer == Says(Allow))
    requires !AllFinished(Standings(ctx.graph, region, Run(ctx, initial).log[..i + 1]))
    ensures var (r, log) := (Run(ctx, initial), Run(ctx, initial).log[..i + 1]);
            var tasks := Standings(ctx.graph, region, log);
            var j := Choose(tasks, ctx.pick(log));
            var q := DispatchRequest(AtNode, [region.branches[j]], region.steps, Some(region.source),
                                     Some(region.batch));
            match tasks[j]
            case Fresh =>
              GoesOn(r, i, if ctx.gate.Durable() then Decided(q, ctx.gate.dispatch(log, q)) else Entered(q))
            case Admitted => ctx.gate.Durable() ==> GoesOn(r, i, Marked(q, ctx.gate.start.value(log, q)))
            case Running =>
              region.branches[j] in ctx.graph.nodes ==>
                GoesOn(r, i, Left(q, ctx.graph.nodes[region.branches[j]].call(region.snapshot).Delivers?))
            case Finished(_) => true
  {
    hide Run, Graph.Valid, Standings, Closing, After, Opened, Snapshot, Touches;
    var log, e := Run(ctx, initial).log[..i + 1], Run(ctx, initial).log[i];
    DueIsDone(ctx, initial, i);
    TouchedIsStepping(ctx, initial, log, e);
  }

  lemma TouchedIsStepping(ctx: Ctx, initial: State, log: Log, e: Event)
    requires Touches(e) || (e.Decided? && e.request.boundary.AtFanOut? && e.answer == Says(Allow))
    ensures After(ctx, initial, log, e) == Stepping(ctx, initial, log)
  {
    hide Stepping, Opened, Given, Published, Hooked;
  }

  // ----- joins, reducers and the commit -----

  /** What concerns the join, the fold or the commit of a region comes after all its branches
      have settled. */
  lemma LateIsConcluded(ctx: Ctx, initial: State, i: nat)
    requires ctx.graph.Valid() && i < |Run(ctx, initial).log| && Late(Run(ctx, initial).log[i])
    ensures Concluded(ctx, Run(ctx, initial).log[..i + 1]).Some?
  {
    hide Run, Graph.Valid, Concluded, Opened, Given;
    EveryEventIsDue(ctx, initial, i);
  }

  /** A custom join that gets control decides who is admitted. */
  lemma EveryJoinIsObeyed(ctx: Ctx, initial: State, i: nat)
    requires ctx.graph.Valid() && i < |Run(ctx, initial).log|
    requires Run(ctx, initial).log[i].Entered? && Run(ctx, initial).log[i].site.boundary.AtJoin?
    ensures var c := Concluded(ctx, Run(ctx, initial).log[..i + 1]);
            c.Some? && Joins(ctx, Run(ctx, initial), i, c.value)
  {
    hide Run, Graph.Valid, Concluded, Admitting, Joins, Opened, Given, Published, Happens;
    LateIsConcluded(ctx, initial, i);
    DueIsDone(ctx, initial, i);
    AdmittingHappens(ctx, Run(ctx, initial), i, Concluded(ctx, Run(ctx, initial).log[..i + 1]).value);
  }

  /** Those admitted in a region all of whose branches have settled, if the join admits. */
  function Items(ctx: Ctx, log: Log): Option<seq<Contribution>> {
    match Concluded(ctx, log)
    case None => None
    case Some(c) =>
      match Admit(c.region.source, c.edge.join, c.region.branches, c.settled)
      case Failure(_) => None
      case Success(items) => Some(items)
  }

  /** Once the fold as a whole is allowed it goes on from the first field; once the custom reducer
      of one field is, it is marked, if the gate keeps start markers, and entered. */
  lemma EveryFoldDecisionIsCarriedOut(ctx: Ctx, initial: State, i: nat)
    requires ctx.graph.Valid() && i < |Run(ctx, initial).log|
    requires Run(ctx, initial).log[i].Decided? && Run(ctx, initial).log[i].request.boundary.AtReducer?
    requires Run(ctx, initial).log[i].answer == Says(Allow)
    ensures var (r, log) := (Run(ctx, initial), Run(ctx, initial).log[..i + 1]);
            var q := r.log[i].request;
            && Concluded(ctx, log).Some?
            && (Items(ctx, log).Some? ==>
                  var items := Items(ctx, log).value;
                  if q.nodes == Names(items) then
                    FoldsOn(ctx, r, i, Concluded(ctx, log).value, items, SortedKeys(Keys(items)))
                  else GoesOn(r, i, if ctx.gate.Durable() then Marked(q, ctx.gate.start.value(log, q)) else Entered(q)))
  {
    hide Run, Graph.Valid, Concluded, FoldsOn, Opened, Given, Published, Admit, Keys, SortedKeys, Folding, GoesOn,
         EndsWith, Stepping;
    var (r, log) := (Run(ctx, initial), Run(ctx, initial).log[..i + 1]);
    LateIsConcluded(ctx, initial, i);
    DueIsDone(ctx, initial, i);
    if Items(ctx, log).Some? && r.log[i].request.nodes == Names(Items(ctx, log).value) {
      var items := Items(ctx, log).value;
      FoldingHappens(ctx, r, i, Concluded(ctx, log).value, items, SortedKeys(Keys(items)));
    }
  }

  /** A custom reducer that gets control is asked; its fault is raised, and after its value the
      fold goes on with the fields after its own. */
  lemma EveryReducerIsObeyed(ctx: Ctx, initial: State, i: nat, items: seq<Contribution>, n: nat)
    requires ctx.graph.Valid() && i < |Run(ctx, initial).log|
    requires Run(ctx, initial).log[i].Entered? && Run(ctx, initial).log[i].site.boundary.AtReducer?
    requires Items(ctx, Run(ctx, initial).log[..i + 1]) == Some(items) && n < |SortedKeys(Keys(items))|
    requires Run(ctx, initial).log[i].site.nodes == Names(items) + [SortedKeys(Keys(items))[n]]
    ensures var (r, log) := (Run(ctx, initial), Run(ctx, initial).log[..i + 1]);
            var keys, snapshot := SortedKeys(Keys(items)), Concluded(ctx, log).value.region.snapshot;
            && Writes(items, keys[n]) != []
            && match ReduceField(keys[n], ReducerFor(ctx.graph, keys[n]), Field(snapshot, keys[n]),
                                 Writes(items, keys[n]))
               case Failure(error) => EndsWith(r, i, error)
               case Success(_) => FoldsOn(ctx, r, i, Concluded(ctx, log).value, items, keys[n + 1..])
  {
    hide Run, Graph.Valid, Concluded, FoldsOn, Opened, Given, Published, Admit, Keys, SortedKeys, Folding, GoesOn,
         EndsWith, Stepping, Writes, ReduceField, Beyond;
    var (r, log) := (Run(ctx, initial), Run(ctx, initial).log[..i + 1]);
    var keys := SortedKeys(Keys(items));
    DueIsDone(ctx, initial, i);
    WritesExist(items, keys[n]);
    BeyondAt(keys, n);
    var rest := [keys[n]] + Beyond(keys, keys[n]);
    assert rest[1..] == keys[n + 1..];
    if ReduceField(keys[n], ReducerFor(ctx.graph, keys[n]), Field(Concluded(ctx, log).value.region.snapshot, keys[n]),
                   Writes(items, keys[n])).Success? {
      FoldingHappens(ctx, r, i, Concluded(ctx, log).value, items, keys[n + 1..]);
    }
  }

  lemma BeyondAt(keys: seq<string>, n: nat)
    requires n < |keys| && Ascending(keys)
    ensures Beyond(keys, keys[n]) == keys[n + 1..]
  {
    hide StrLe;
    assert keys == keys[..n] + keys[n..];
    assert keys[n..][1..] == keys[n + 1..];
    Obedience.KeyIsNew(keys[..n], keys[n..]);
  }

  /** After the allow of a region's commit, or its settlement, or one of its ends, the publication
      goes on: the next admitted branch is shown to end, or the commit is shown. */
  lemma EveryCommitIsShown(ctx: Ctx, initial: State, i: nat, items: seq<Contribution>)
    requires ctx.graph.Valid() && i < |Run(ctx, initial).log|
    requires Items(ctx, Run(ctx, initial).log[..i + 1]) == Some(items)
    requires match Run(ctx, initial).log[i]
             case CommitDecided(q, answer) =>
               q.boundary.RegionCommit? && answer == Says(Allow) && ctx.gate.Gate? && ctx.gate.settle.None?
             case Settled(q, _) => q.boundary.RegionCommit?
             case Observed(o) => o.NodeEnd? && Opened(Run(ctx, initial).log[..i + 1]).Some?
             case _ => false
    ensures var (r, log) := (Run(ctx, initial), Run(ctx, initial).log[..i + 1]);
            var c := Concluded(ctx, log).value;
            Publishes(r, i, c, items, Folded(ctx.graph, c.region.snapshot, items, SortedKeys(Keys(items))), |Ends(log)|)
  {
    hide Run, Graph.Valid, Concluded, Opened, Given, Published, Admit, Keys, SortedKeys, GoesOn, Ends, Folded,
         JoinLaws.CountOk;
    DueIsDone(ctx, initial, i);
  }

  /** After a region's commit its settlement hook's error is raised, if it failed; else the region's
      continuation is selected, in the committed state. */
  lemma EveryRegionLeadsOn(ctx: Ctx, initial: State, i: nat, node: string, steps: nat, next: string)
    requires ctx.graph.Valid() && i < |Run(ctx, initial).log|
    requires var e := Run(ctx, initial).log[i];
             e.Observed? && e.obs.SuperstepCommit? && e.obs.node == node && e.obs.steps == steps
    requires node in ctx.graph.edges && ctx.graph.edges[node].FanOut? && ctx.graph.edges[node].next == next
    ensures var r := Run(ctx, initial);
            match Hooked(r.log[..i + 1])
            case Some(Unawaitable) => EndsWith(r, i, NotAwaitable)
            case Some(Crashes(fault)) => EndsWith(r, i, Raised(fault))
            case _ =>
              if next == "" then EndsWith(r, i, EmptyRoute)
              else if next != END && next !in ctx.graph.nodes then EndsWith(r, i, UnknownRoute(next))
              else GoesOn(r, i, Observed(EdgeSelected(node, next, steps, r.log[i].obs.state)))
  {
    hide Run, Graph.Valid, Hooked, Opened, Given, Published, Opening, EndsWith, GoesOn;
    DueIsDone(ctx, initial, i);
  }
}
