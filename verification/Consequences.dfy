/** What follows, for every run, from its observations being in the grammar. */
module Consequences {
  import opened Values
  import opened Engine
  import opened Grammar

  lemma ScanNothing(max: int, p: Phase)
    ensures Scan(max, p, []) == p
  {
  }

  lemma ScanLast(max: int, p: Phase, obs: seq<Observation>)
    requires obs != []
    ensures Scan(max, p, obs) == Next(max, Scan(max, p, obs[..|obs| - 1]), obs[|obs| - 1])
  {
  }

  /** A prefix of a legal sequence is legal. */
  lemma {:induction false} ScanPrefix(max: int, p: Phase, obs: seq<Observation>, n: nat)
    requires n <= |obs| && Scan(max, p, obs) != Bad
    ensures Scan(max, p, obs[..n]) != Bad
  {
    if n < |obs| {
      ScanPrefix(max, p, obs[..|obs| - 1], n);
      assert obs[..|obs| - 1][..n] == obs[..n];
    } else {
      assert obs[..n] == obs;
    }
  }

  // ----- atomic publication -----

  predicate Bookkeeping(key: string) { key == STATUS || key == METADATA || key == VISITED }

  /** Equal on every field the scheduler does not write by itself. */
  ghost predicate Agree(a: State, b: State) {
    forall k: string :: !Bookkeeping(k) ==> (k in a <==> k in b) && (k in a ==> a[k] == b[k])
  }

  /** The state of the last node end or region commit; before any, the initial state. */
  function LastPublished(initial: State, obs: seq<Observation>): State {
    if obs == [] then initial else
    var last := obs[|obs| - 1];
    if last.NodeEnd? || last.SuperstepCommit? then last.state else LastPublished(initial, obs[..|obs| - 1])
  }

  ghost predicate PhaseAgrees(p: Phase, published: State) {
    match p
    case Opening(_, _, base, snapshot, _, _, _) => Agree(base, published) && Agree(snapshot, published)
    case Over => true
    case Bad => true
    case _ => Agree(p.state, published)
  }

  lemma PublicationStep(max: int, q: Phase, o: Observation, published: State)
    requires PhaseAgrees(q, published) && Next(max, q, o) != Bad
    ensures var now := if o.NodeEnd? || o.SuperstepCommit? then o.state else published;
            PhaseAgrees(Next(max, q, o), now) && Agree(o.state, now)
  {
  }

  lemma {:induction false} PublicationInvariant(max: int, initial: State, obs: seq<Observation>)
    requires Scan(max, Begin(initial), obs) != Bad
    ensures PhaseAgrees(Scan(max, Begin(initial), obs), LastPublished(initial, obs))
    ensures obs != [] ==> Agree(obs[|obs| - 1].state, LastPublished(initial, obs))
  {
    hide Next, Scan;
    if obs != [] {
      var before := obs[..|obs| - 1];
      ScanPrefix(max, Begin(initial), obs, |obs| - 1);
      ScanLast(max, Begin(initial), obs);
      PublicationInvariant(max, initial, before);
      PublicationStep(max, Scan(max, Begin(initial), before), obs[|obs| - 1], LastPublished(initial, before));
    } else {
      ScanNothing(max, Begin(initial));
    }
  }

  /** Nothing unpublished is ever visible: every observed state is the last published
      one, apart from the scheduler's own three fields. */
  lemma OnlyPublishedStateIsObserved(ctx: Ctx, state: State, i: nat)
    requires ctx.graph.Valid()
    requires i < |Obs(Run(ctx, state).log)|
    ensures var obs := Obs(Run(ctx, state).log); Agree(obs[i].state, LastPublished(state, obs[..i + 1]))
  {
    hide Next, Scan, Run, Obs;
    RunObeysGrammar(ctx, state);
    var obs := Obs(Run(ctx, state).log);
    ScanPrefix(ctx.graph.maxSteps, Begin(state), obs, i + 1);
    PublicationInvariant(ctx.graph.maxSteps, state, obs[..i + 1]);
    assert obs[..i + 1][|obs[..i + 1]| - 1] == obs[i];
  }

  /** The observations of a region between its start and `n`, as long as it has not committed. */
  ghost predicate Uncommitted(max: int, p: Phase, obs: seq<Observation>, i: nat, n: nat)
    requires i < n <= |obs|
  {
    var q := Scan(max, p, obs[..n]);
    || (q.Opening? && forall j :: i < j < n ==> obs[j].NodeStart?)
    || (q.Over? && forall j :: i < j < n ==> obs[j].NodeStart? || obs[j].Stopped? || obs[j].Interrupted?)
    || q.Closing?
  }

  lemma UncommittedStep(max: int, q: Phase, o: Observation)
    requires !o.SuperstepCommit? && Next(max, q, o) != Bad
    ensures q.Closing? ==> Next(max, q, o).Closing?
    ensures q.Opening? ==> var r := Next(max, q, o);
              (r.Opening? && o.NodeStart?) || r.Closing? || (r.Over? && (o.Stopped? || o.Interrupted?))
    ensures !q.Over?
  {
  }

  lemma StartOpens(max: int, q: Phase, o: Observation)
    requires o.SuperstepStart? && Next(max, q, o) != Bad
    ensures Next(max, q, o).Opening?
  {
  }

  lemma {:induction false} UncommittedInvariant(max: int, p: Phase, obs: seq<Observation>, i: nat, n: nat)
    requires i < n <= |obs| && obs[i].SuperstepStart? && Scan(max, p, obs) != Bad
    requires forall j :: i < j < n ==> !obs[j].SuperstepCommit?
    ensures Uncommitted(max, p, obs, i, n)
    decreases n
  {
    hide Next, Scan;
    ScanPrefix(max, p, obs, n);
    assert obs[..n][..n - 1] == obs[..n - 1];
    var q := Scan(max, p, obs[..n - 1]);
    ScanLast(max, p, obs[..n]);
    if n > i + 1 {
      UncommittedInvariant(max, p, obs, i, n - 1);
      UncommittedStep(max, q, obs[n - 1]);
    } else {
      StartOpens(max, q, obs[n - 1]);
    }
  }

  /** A region that does not commit publishes nothing: after its start only branch
      starts and at most a terminal observation are seen. */
  lemma UncommittedRegionPublishesNothing(ctx: Ctx, state: State, i: nat)
    requires ctx.graph.Valid()
    requires i < |Obs(Run(ctx, state).log)|
    requires var obs := Obs(Run(ctx, state).log);
             obs[i].SuperstepStart? && forall j :: i < j < |obs| ==> !obs[j].SuperstepCommit?
    ensures var obs := Obs(Run(ctx, state).log);
            forall j :: i < j < |obs| ==> obs[j].NodeStart? || obs[j].Stopped? || obs[j].Interrupted?
  {
    hide Next, Scan, Run, Obs;
    RunObeysGrammar(ctx, state);
    var obs := Obs(Run(ctx, state).log);
    UncommittedInvariant(ctx.graph.maxSteps, Begin(state), obs, i, |obs|);
    assert obs[..|obs|] == obs;
  }

  // ----- terminal observations -----

  ghost predicate StatusMatches(o: Observation) {
    match o
    case Done(_, s) => s[STATUS] == Str("done")
    case Stopped(_, _, s) => s[STATUS] == Str("stopped")
    case Interrupted(_, _, _, s) => s[STATUS] == Str("interrupted")
    case _ => false
  }

  /** A run that raises nothing ends with one terminal observation, last, whose kind is
      the final status; a run that raises shows no terminal observation at all. */
  lemma TerminalKindIsFinalStatus(ctx: Ctx, state: State)
    requires ctx.graph.Valid()
    ensures var r := Run(ctx, state);
            var obs := Obs(r.log);
            && (r.Ended? ==> obs != [] && StatusMatches(obs[|obs| - 1]))
            && (forall i :: 0 <= i < |obs| && obs[i].Terminal() ==> r.Ended? && i == |obs| - 1)
  {
    hide Next, Scan, Run, Obs;
    RunObeysGrammar(ctx, state);
    var max, p := ctx.graph.maxSteps, Begin(state);
    var obs := Obs(Run(ctx, state).log);
    forall i | 0 <= i < |obs| && obs[i].Terminal() ensures i == |obs| - 1 {
      TerminalIsLast(max, p, obs, i);
    }
    if obs != [] {
      ScanPrefix(max, p, obs, |obs| - 1);
      ScanLast(max, p, obs);
      TerminalStep(max, Scan(max, p, obs[..|obs| - 1]), obs[|obs| - 1]);
    } else {
      ScanNothing(max, p);
    }
  }

  lemma TerminalStep(max: int, q: Phase, o: Observation)
    requires Next(max, q, o) != Bad
    ensures o.Terminal() <==> Next(max, q, o).Over?
    ensures o.Terminal() ==> StatusMatches(o)
    ensures !q.Over?
  {
  }

  lemma TerminalIsLast(max: int, p: Phase, obs: seq<Observation>, i: nat)
    requires i < |obs| && obs[i].Terminal() && Scan(max, p, obs) != Bad
    ensures i == |obs| - 1
  {
    hide Next, Scan;
    ScanPrefix(max, p, obs, i + 1);
    ScanLast(max, p, obs[..i + 1]);
    assert obs[..i + 1][..i] == obs[..i];
    TerminalStep(max, Scan(max, p, obs[..i]), obs[i]);
    if i + 1 < |obs| {
      ScanPrefix(max, p, obs, i + 2);
      ScanLast(max, p, obs[..i + 2]);
      assert obs[..i + 2][..i + 1] == obs[..i + 1];
      TerminalStep(max, Scan(max, p, obs[..i + 1]), obs[i + 1]);
    }
  }

  // ----- bounded work -----

  /** Branches announced by the regions of a run. */
  function Fanned(obs: seq<Observation>): nat {
    if obs == [] then 0 else
    var last := obs[|obs| - 1];
    Fanned(obs[..|obs| - 1]) + if last.SuperstepStart? then |last.branches| else 0
  }

  /** `r * r / 4` without the multiplication. */
  function Quarter(r: nat): nat { if r < 2 then 0 else Quarter(r - 2) + r - 1 }

  lemma {:induction false} QuarterSquare(r: nat)
    ensures Quarter(r) == r * r / 4
  {
    if r >= 2 {
      QuarterSquare(r - 2);
      assert r * r == (r - 2) * (r - 2) + 4 * (r - 1);
    }
  }

  lemma {:induction false} QuarterMonotone(a: nat, b: nat)
    requires a <= b
    ensures Quarter(a) <= Quarter(b)
  {
    if a >= 2 { QuarterMonotone(a - 2, b - 2); }
  }

  /** How much of the budget the branches announced so far may have used. */
  ghost predicate WithinBudget(m: nat, p: Phase, fanned: nat) {
    match p
    case Begin(_) => fanned == 0
    case Heading(_, _, k) => k <= m && fanned + Quarter(m - k) <= Quarter(m)
    case Inside(_, _, k) => k < m && fanned + Quarter(m - k) <= Quarter(m)
    case Rested(_, _, k, None) => 1 <= k <= m && fanned + Quarter(m - k + 1) <= Quarter(m)
    case Rested(_, _, k, Some(_)) => k <= m && fanned + Quarter(m - k) <= Quarter(m)
    case Opening(_, _, _, _, k, bs, _) =>
      1 <= k && 2 <= |bs| && k + |bs| <= m && fanned + Quarter(m - k + 1) <= Quarter(m) + |bs|
    case Closing(_, _, _, _, k, _, _) => k <= m && fanned + Quarter(m - k) <= Quarter(m)
    case Over => fanned <= Quarter(m)
    case Bad => true
  }

  function Announced(o: Observation): nat { if o.SuperstepStart? then |o.branches| else 0 }

  lemma OpeningNext(max: int, p: Phase, o: Observation)
    requires p.Opening? && Next(max, p, o) != Bad
    ensures var q := Next(max, p, o);
            || (q.Opening? && q.steps == p.steps && q.branches == p.branches)
            || (q.Closing? && p.steps < q.steps <= p.steps + |p.branches|)
            || q.Over?
    ensures !o.SuperstepStart?
  {
  }

  lemma OpeningBudget(m: nat, p: Phase, o: Observation, fanned: nat)
    requires p.Opening? && WithinBudget(m, p, fanned) && Next(m, p, o) != Bad
    ensures WithinBudget(m, Next(m, p, o), fanned) && fanned <= Quarter(m) && !o.SuperstepStart?
  {
    hide Next;
    OpeningNext(m, p, o);
    var k, q := p.steps, Next(m, p, o);
    assert Quarter(m - k + 1) == Quarter(m - k - 1) + (m - k);
    if q.Closing? { QuarterMonotone(m - q.steps, m - k - 1); }
  }

  lemma RestedBudget(m: nat, p: Phase, o: Observation, fanned: nat)
    requires p.Rested? && WithinBudget(m, p, fanned) && Next(m, p, o) != Bad
    ensures WithinBudget(m, Next(m, p, o), fanned + Announced(o)) && fanned + Announced(o) <= Quarter(m)
  {
    if p.region.None? {
      var k := p.steps;
      QuarterMonotone(m - k, m - k + 1);
      if o.SuperstepStart? {
        assert Quarter(m - k + 1) == Quarter(m - k - 1) + (m - k);
        assert Next(m, p, o).steps == k && Next(m, p, o).branches == o.branches;
      }
    }
  }

  lemma PlainBudget(m: nat, p: Phase, o: Observation, fanned: nat)
    requires !p.Opening? && !p.Rested? && WithinBudget(m, p, fanned) && Next(m, p, o) != Bad
    ensures WithinBudget(m, Next(m, p, o), fanned) && fanned <= Quarter(m) && !o.SuperstepStart?
  {
    hide Quarter;
  }

  lemma BudgetStep(m: nat, p: Phase, o: Observation, fanned: nat)
    requires WithinBudget(m, p, fanned) && Next(m, p, o) != Bad
    ensures WithinBudget(m, Next(m, p, o), fanned + Announced(o)) && fanned + Announced(o) <= Quarter(m)
  {
    hide Next, Quarter;
    if p.Opening? { OpeningBudget(m, p, o, fanned); }
    else if p.Rested? { RestedBudget(m, p, o, fanned); }
    else { PlainBudget(m, p, o, fanned); }
  }

  lemma {:induction false} BudgetInvariant(m: nat, initial: State, obs: seq<Observation>)
    requires Scan(m, Begin(initial), obs) != Bad
    ensures WithinBudget(m, Scan(m, Begin(initial), obs), Fanned(obs))
    ensures Fanned(obs) <= Quarter(m)
  {
    hide Next, Scan;
    if obs != [] {
      var before := obs[..|obs| - 1];
      ScanPrefix(m, Begin(initial), obs, |obs| - 1);
      ScanLast(m, Begin(initial), obs);
      BudgetInvariant(m, initial, before);
      BudgetStep(m, Scan(m, Begin(initial), before), obs[|obs| - 1], Fanned(before));
    } else {
      ScanNothing(m, Begin(initial));
    }
  }

  function Budget(max: int): nat { if max < 0 then 0 else max }

  ghost predicate StepsBounded(max: int, p: Phase) {
    match p
    case Begin(_) => true
    case Over => true
    case Bad => true
    case Opening(_, _, _, _, k, bs, _) => k + |bs| <= Budget(max)
    case _ => p.steps <= Budget(max) && (p.Inside? ==> p.steps < max)
  }

  /** Without a budget no node is ever started. */
  ghost predicate Idle(p: Phase) { p.Begin? || p.Heading? || p.Over? }

  lemma StepsStep(max: int, p: Phase, o: Observation)
    requires StepsBounded(max, p) && Next(max, p, o) != Bad
    ensures StepsBounded(max, Next(max, p, o)) && o.steps <= Budget(max)
    ensures max <= 0 && Idle(p) ==> Idle(Next(max, p, o)) && !o.SuperstepStart?
  {
  }

  lemma {:induction false} StepsInvariant(max: int, initial: State, obs: seq<Observation>)
    requires Scan(max, Begin(initial), obs) != Bad
    ensures StepsBounded(max, Scan(max, Begin(initial), obs))
    ensures obs != [] ==> obs[|obs| - 1].steps <= Budget(max)
    ensures max <= 0 ==> Fanned(obs) == 0 && Idle(Scan(max, Begin(initial), obs))
  {
    hide Next, Scan;
    if obs != [] {
      ScanPrefix(max, Begin(initial), obs, |obs| - 1);
      ScanLast(max, Begin(initial), obs);
      StepsInvariant(max, initial, obs[..|obs| - 1]);
      StepsStep(max, Scan(max, Begin(initial), obs[..|obs| - 1]), obs[|obs| - 1]);
    } else {
      ScanNothing(max, Begin(initial));
    }
  }

  /** Steps never exceed the budget M, and all regions of a run together announce at
      most M * M / 4 branches. */
  lemma WorkIsBounded(ctx: Ctx, state: State)
    requires ctx.graph.Valid()
    ensures var m := Budget(ctx.graph.maxSteps);
            var obs := Obs(Run(ctx, state).log);
            && (forall o <- obs :: o.steps <= m)
            && Fanned(obs) <= m * m / 4
  {
    hide Next, Scan, Run, Obs;
    RunObeysGrammar(ctx, state);
    var max := ctx.graph.maxSteps;
    var obs := Obs(Run(ctx, state).log);
    forall i | 0 <= i < |obs| ensures obs[i].steps <= Budget(max) {
      ScanPrefix(max, Begin(state), obs, i + 1);
      StepsInvariant(max, state, obs[..i + 1]);
      assert obs[..i + 1][|obs[..i + 1]| - 1] == obs[i];
    }
    StepsInvariant(max, state, obs);
    if max > 0 { BudgetInvariant(max, state, obs); }
    QuarterSquare(Budget(max));
  }

  // ----- visit accounting -----

  /** The names of all node starts, in order. */
  function Started(obs: seq<Observation>): seq<string> {
    if obs == [] then [] else
    var last := obs[|obs| - 1];
    Started(obs[..|obs| - 1]) + if last.NodeStart? then [last.node] else []
  }

  ghost predicate WritesVisits(o: Observation) {
    (o.NodeEnd? || o.SuperstepCommit?) && VISITED in o.delta
  }

  ghost predicate Visits(p: Phase, before: seq<Value>, started: seq<string>) {
    match p
    case Opening(_, _, _, snapshot, _, branches, n) =>
      n <= |branches| && snapshot[VISITED] == List(before + Strs(started + branches[n..]))
    case Closing(_, _, snapshot, _, _, _, _) => snapshot[VISITED] == List(before + Strs(started))
    case Over => true
    case Bad => true
    case _ => p.state[VISITED] == List(before + Strs(started))
  }

  lemma StrsAppend(a: seq<string>, b: seq<string>)
    ensures Strs(a + b) == Strs(a) + Strs(b)
  {
  }

  lemma VisitsStep(max: int, p: Phase, o: Observation, before: seq<Value>, started: seq<string>)
    requires Visits(p, before, started) && Next(max, p, o) != Bad && !WritesVisits(o)
    ensures Visits(Next(max, p, o), before, started + if o.NodeStart? then [o.node] else [])
  {
    match o
    case NodeStart(node, _, _) =>
      if p.Heading? {
        StrsAppend(started, [node]);
        assert before + Strs(started) + Strs([node]) == before + Strs(started + [node]);
      } else {
        assert started + p.branches[p.started..] == (started + [node]) + p.branches[p.started + 1..];
      }
    case SuperstepStart(_, _, _, branches, _) =>
      StrsAppend(started, branches);
      assert branches[0..] == branches && started + [] == started;
      assert before + Strs(started) + Strs(branches) == before + Strs(started + branches);
    case NodeEnd(_, _, _, _) =>
      if p.Opening? { assert started + p.branches[p.started..] == started; }
      assert started + [] == started;
    case _ => assert started + [] == started;
  }

  lemma {:induction false} VisitsInvariant(max: int, initial: State, obs: seq<Observation>, before: seq<Value>)
    requires initial[VISITED] == List(before)
    requires Scan(max, Begin(initial), obs) != Bad
    requires forall o <- obs :: !WritesVisits(o)
    ensures Visits(Scan(max, Begin(initial), obs), before, Started(obs))
  {
    hide Next, Scan;
    if obs != [] {
      var prefix := obs[..|obs| - 1];
      ScanPrefix(max, Begin(initial), obs, |obs| - 1);
      ScanLast(max, Begin(initial), obs);
      VisitsInvariant(max, initial, prefix, before);
      VisitsStep(max, Scan(max, Begin(initial), prefix), obs[|obs| - 1], before, Started(prefix));
    } else {
      ScanNothing(max, Begin(initial));
      assert before + Strs([]) == before;
    }
  }

  lemma DoneFromHeading(max: int, p: Phase, o: Observation)
    requires o.Done? && Next(max, p, o) != Bad
    ensures p.Heading? && o.state[VISITED] == p.state[VISITED]
  {
  }

  /** If no published delta writes `nodes_visited`, the final state of a finished run
      lists exactly the nodes started, in order, after what was there initially. */
  lemma VisitedIsStarted(ctx: Ctx, state: State, before: seq<Value>)
    requires ctx.graph.Valid() && state[VISITED] == List(before)
    requires forall o <- Obs(Run(ctx, state).log) :: !WritesVisits(o)
    ensures var obs := Obs(Run(ctx, state).log);
            obs != [] && obs[|obs| - 1].Done? ==> obs[|obs| - 1].state[VISITED] == List(before + Strs(Started(obs)))
  {
    hide Next, Scan, Run, Obs;
    RunObeysGrammar(ctx, state);
    var max := ctx.graph.maxSteps;
    var obs := Obs(Run(ctx, state).log);
    if obs != [] && obs[|obs| - 1].Done? {
      var prefix := obs[..|obs| - 1];
      ScanPrefix(max, Begin(state), obs, |obs| - 1);
      ScanLast(max, Begin(state), obs);
      VisitsInvariant(max, state, prefix, before);
      DoneFromHeading(max, Scan(max, Begin(state), prefix), obs[|obs| - 1]);
      assert Started(obs) == Started(prefix) + [];
    }
  }
}
