/** Bounded batches: one task for every input, a semaphore, and the event loop's choice of
    who moves next. */
module Batch {
  import opened Values
  import opened Ordering
  import opened Protocol
  import Engine
  import Observer

  /** `config["max_concurrency"]` as the caller supplies it. */
  datatype Setting = Absent | Flag(b: bool) | Number(n: int) | Junk

  /** No bound, or a positive one; anything else is a ValueError. */
  function Limit(setting: Setting): (r: Result<Option<nat>, ()>)
    ensures r.Success? <==> setting.Absent? || (setting.Number? && setting.n > 0)
    ensures r.Success? && r.value.Some? ==> r.value.value > 0
  {
    match setting
    case Absent => Success(None)
    case Number(n) => if n > 0 then Success(Some(n)) else Failure(())
    case _ => Failure(())
  }

  datatype Phase = Waiting | Running | Finished

  /** The tasks, and for each start and finish of a graph run, who it was. */
  datatype Group = Group(limit: Option<nat>, phases: seq<Phase>, permits: nat, started: seq<nat>, finished: seq<nat>)
  {
    predicate CanStart(i: nat) { i < |phases| && phases[i].Waiting? && (limit.Some? ==> permits > 0) }

    predicate CanFinish(i: nat) { i < |phases| && phases[i].Running? }

    /** Enter the semaphore and the graph run. */
    function Start(i: nat): Group
      requires CanStart(i)
    {
      Group(limit, phases[i := Running], if limit.Some? then permits - 1 else permits, started + [i], finished)
    }

    /** Leave both. */
    function Finish(i: nat): Group
      requires CanFinish(i)
    {
      Group(limit, phases[i := Finished], if limit.Some? then permits + 1 else permits, started, finished + [i])
    }

    ghost predicate Steps(next: Group) {
      exists i: nat :: (CanStart(i) && next == Start(i)) || (CanFinish(i) && next == Finish(i))
    }

    predicate Settled() { forall p <- phases :: p.Finished? }
  }

  function Fresh(limit: Option<nat>, inputs: nat): Group {
    Group(limit, seq(inputs, i => Waiting), if limit.Some? then limit.value else 0, [], [])
  }

  /** Some interleaving of `inputs` tasks under `limit`, from the start. */
  ghost predicate Execution(limit: Option<nat>, inputs: nat, groups: seq<Group>) {
    && groups != [] && groups[0] == Fresh(limit, inputs)
    && forall k :: 0 < k < |groups| ==> groups[k - 1].Steps(groups[k])
  }

  function InFlight(phases: seq<Phase>): nat {
    if phases == [] then 0 else InFlight(phases[..|phases| - 1]) + if phases[|phases| - 1].Running? then 1 else 0
  }

  /** Steps still to come. */
  function Pending(phases: seq<Phase>): nat {
    if phases == [] then 0 else
    Pending(phases[..|phases| - 1]) +
      match phases[|phases| - 1] case Waiting => 2 case Running => 1 case Finished => 0
  }

  lemma {:induction false} CountUpdate(phases: seq<Phase>, i: nat, p: Phase)
    requires i < |phases|
    ensures InFlight(phases[i := p]) ==
              InFlight(phases) - (if phases[i].Running? then 1 else 0) + if p.Running? then 1 else 0
    ensures Pending(phases[i := p]) ==
              Pending(phases) - (match phases[i] case Waiting => 2 case Running => 1 case Finished => 0)
              + match p case Waiting => 2 case Running => 1 case Finished => 0
  {
    var n := |phases| - 1;
    if i < n {
      CountUpdate(phases[..n], i, p);
      assert phases[i := p][..n] == phases[..n][i := p];
    } else {
      assert phases[i := p][..n] == phases[..n];
    }
  }

  lemma {:induction false} CountFresh(n: nat)
    ensures InFlight(seq(n, i => Waiting)) == 0 && Pending(seq(n, i => Waiting)) == 2 * n
  {
    if n > 0 {
      CountFresh(n - 1);
      assert seq(n, i => Waiting)[..n - 1] == seq(n - 1, i => Waiting);
    }
  }

  /** What every step keeps. */
  ghost predicate Consistent(g: Group) {
    && (g.limit.Some? ==> InFlight(g.phases) + g.permits == g.limit.value)
    && (forall i :: i in g.started <==> 0 <= i < |g.phases| && !g.phases[i].Waiting?)
    && (forall i :: i in g.finished <==> 0 <= i < |g.phases| && g.phases[i].Finished?)
    && Unique(g.started) && Unique(g.finished)
  }

  lemma StepKeeps(g: Group, next: Group)
    requires Consistent(g) && g.Steps(next)
    ensures Consistent(next) && next.limit == g.limit && |next.phases| == |g.phases|
    ensures Pending(next.phases) < Pending(g.phases)
    ensures g.started <= next.started && g.finished <= next.finished
  {
    hide InFlight, Pending;
    var i: nat :| (g.CanStart(i) && next == g.Start(i)) || (g.CanFinish(i) && next == g.Finish(i));
    CountUpdate(g.phases, i, next.phases[i]);
  }

  lemma FrontIsExecution(limit: Option<nat>, inputs: nat, groups: seq<Group>)
    requires Execution(limit, inputs, groups) && |groups| > 1
    ensures Execution(limit, inputs, groups[..|groups| - 1])
    ensures groups[|groups| - 2].Steps(groups[|groups| - 1])
  {
    hide Group.Steps;
    var front := groups[..|groups| - 1];
    forall k | 0 < k < |front| ensures front[k - 1].Steps(front[k]) { assert groups[k - 1].Steps(groups[k]); }
  }

  lemma ZeroCannotMove(inputs: nat, next: Group)
    ensures !Fresh(Some(0), inputs).Steps(next)
  {
  }

  lemma {:induction false} ExecutionKeeps(limit: Option<nat>, inputs: nat, groups: seq<Group>)
    requires Execution(limit, inputs, groups)
    ensures var g := groups[|groups| - 1];
            && Consistent(g) && g.limit == limit && |g.phases| == inputs
            && Pending(g.phases) + |groups| - 1 <= 2 * inputs
  {
    hide InFlight, Pending, Group.Steps;
    if |groups| == 1 {
      CountFresh(inputs);
    } else {
      var front := groups[..|groups| - 1];
      FrontIsExecution(limit, inputs, groups);
      ExecutionKeeps(limit, inputs, front);
      StepKeeps(front[|front| - 1], groups[|groups| - 1]);
    }
  }

  /** At every moment of every interleaving at most `limit` graph runs are in flight, and
      no input was started or finished twice. */
  lemma ConcurrencyIsBounded(limit: Option<nat>, inputs: nat, groups: seq<Group>)
    requires Execution(limit, inputs, groups)
    ensures var g := groups[|groups| - 1];
            && (limit.Some? ==> InFlight(g.phases) <= limit.value)
            && Unique(g.started) && Unique(g.finished)
  {
    ExecutionKeeps(limit, inputs, groups);
  }

  /** No interleaving takes more than two steps for each input. */
  lemma EveryExecutionEnds(limit: Option<nat>, inputs: nat, groups: seq<Group>)
    requires Execution(limit, inputs, groups)
    ensures |groups| <= 2 * inputs + 1
  {
    ExecutionKeeps(limit, inputs, groups);
  }

  lemma {:induction false} NoneInFlight(phases: seq<Phase>)
    requires forall p <- phases :: !p.Running?
    ensures InFlight(phases) == 0
  {
    if phases != [] { NoneInFlight(phases[..|phases| - 1]); }
  }

  /** No deadlock: under a positive limit, or none, some task can move until all have
      finished. Under a limit of zero nothing ever could, which is why it is refused. */
  lemma SomeTaskCanMove(limit: Option<nat>, inputs: nat, groups: seq<Group>)
    requires Execution(limit, inputs, groups)
    ensures var g := groups[|groups| - 1];
            (limit.Some? ==> limit.value > 0) ==> (g.Settled() <==> forall next :: !g.Steps(next))
    ensures limit == Some(0) ==> groups[|groups| - 1] == Fresh(limit, inputs)
  {
    hide InFlight, Pending;
    ExecutionKeeps(limit, inputs, groups);
    var g := groups[|groups| - 1];
    if (limit.Some? ==> limit.value > 0) && !g.Settled() {
      if exists i :: 0 <= i < |g.phases| && g.phases[i].Running? {
        var i :| 0 <= i < |g.phases| && g.phases[i].Running?;
        assert g.CanFinish(i) && g.Steps(g.Finish(i));
      } else {
        NoneInFlight(g.phases);
        var i :| 0 <= i < |g.phases| && !g.phases[i].Finished?;
        assert g.CanStart(i) && g.Steps(g.Start(i));
      }
    }
    if g.Settled() {
      forall next ensures !g.Steps(next) {
        forall i: nat ensures !g.CanStart(i) && !g.CanFinish(i) {
          if i < |g.phases| { assert g.phases[i] in g.phases; }
        }
      }
    }
    if limit == Some(0) { ZeroIsStuck(inputs, groups); }
  }

  lemma {:induction false} ZeroIsStuck(inputs: nat, groups: seq<Group>)
    requires Execution(Some(0), inputs, groups)
    ensures groups[|groups| - 1] == Fresh(Some(0), inputs)
  {
    if |groups| > 1 {
      var front := groups[..|groups| - 1];
      FrontIsExecution(Some(0), inputs, groups);
      ZeroIsStuck(inputs, front);
      ZeroCannotMove(inputs, groups[|groups| - 1]);
    }
  }

  // ----- results -----

  /** What `gather` gives: once a run has failed, the failure that came first; otherwise the
      results, each in the place of its input. */
  function Gather<T>(answers: seq<Result<T, Error>>, finished: seq<nat>): Result<seq<T>, Error>
    requires forall i <- finished :: i < |answers|
  {
    var failure := FirstFailure(answers, finished);
    if failure.Some? then Failure(failure.value) else Success(Collect(answers))
  }

  function FirstFailure<T>(answers: seq<Result<T, Error>>, finished: seq<nat>): (r: Option<Error>)
    requires forall i <- finished :: i < |answers|
    ensures r.None? <==> forall i <- finished :: answers[i].Success?
  {
    if finished == [] then None else
    assert finished[0] in finished;
    if answers[finished[0]].Failure? then Some(answers[finished[0]].error)
    else
      assert forall i <- finished[1..] :: i in finished;
      FirstFailure(answers, finished[1..])
  }

  function Collect<T>(answers: seq<Result<T, Error>>): seq<T> {
    if answers == [] then [] else
    var last := answers[|answers| - 1];
    Collect(answers[..|answers| - 1]) + if last.Success? then [last.value] else []
  }

  lemma {:induction false} Collected<T>(answers: seq<Result<T, Error>>)
    requires forall a <- answers :: a.Success?
    ensures |Collect(answers)| == |answers|
    ensures forall i :: 0 <= i < |answers| ==> answers[i] == Success(Collect(answers)[i])
  {
    if answers != [] { Collected(answers[..|answers| - 1]); }
  }

  function Answers(ctx: Engine.Ctx, inputs: seq<State>): (answers: seq<Result<State, Error>>)
    ensures |answers| == |inputs|
  {
    seq(|inputs|, i requires 0 <= i < |inputs| => Observer.Invoke(ctx, inputs[i]))
  }

  /** Whatever the interleaving, a settled batch ran every input exactly once, result i is
      that of input i, and it fails exactly when some input's run fails. */
  lemma ResultsBelongToInputs(ctx: Engine.Ctx, limit: Option<nat>, inputs: seq<State>, groups: seq<Group>)
    requires Execution(limit, |inputs|, groups) && groups[|groups| - 1].Settled()
    ensures var g := groups[|groups| - 1];
            && multiset(g.started) == multiset(g.finished)
            && |g.finished| == |inputs| && (forall i :: i in g.finished <==> 0 <= i < |inputs|)
            && var r := Gather(Answers(ctx, inputs), g.finished);
            && (r.Success? <==> forall s <- inputs :: Observer.Invoke(ctx, s).Success?)
            && (r.Success? ==>
                  && |r.value| == |inputs|
                  && forall i :: 0 <= i < |inputs| ==> Success(r.value[i]) == Observer.Invoke(ctx, inputs[i]))
            && (r.Failure? ==> exists s <- inputs :: Observer.Invoke(ctx, s) == Failure(r.error))
  {
    hide Observer.Invoke, InFlight, Pending;
    ExecutionKeeps(limit, |inputs|, groups);
    var g := groups[|groups| - 1];
    assert forall i :: 0 <= i < |g.phases| ==> g.phases[i] in g.phases;
    SameOnce(g.started, g.finished);
    CountUpTo(g.finished, |inputs|);
    var answers := Answers(ctx, inputs);
    if Gather(answers, g.finished).Success? {
      forall a | a in answers ensures a.Success? {
        var i :| 0 <= i < |answers| && answers[i] == a;
        assert i in g.finished;
      }
      Collected(answers);
    } else {
      FailureOfOne(answers, g.finished);
    }
    forall s | s in inputs && Gather(answers, g.finished).Success? ensures Observer.Invoke(ctx, s).Success? {
      var i :| 0 <= i < |inputs| && inputs[i] == s;
      assert i in g.finished && answers[i] == Observer.Invoke(ctx, s);
    }
  }

  lemma {:induction false} FailureOfOne<T>(answers: seq<Result<T, Error>>, finished: seq<nat>)
    requires forall i <- finished :: i < |answers|
    ensures FirstFailure(answers, finished).Some? ==>
              exists i <- finished :: answers[i] == Failure(FirstFailure(answers, finished).value)
  {
    if finished != [] {
      assert finished[0] in finished;
      assert forall i <- finished[1..] :: i in finished;
      if answers[finished[0]].Success? { FailureOfOne(answers, finished[1..]); }
    }
  }

  lemma {:induction false} OnceCount(xs: seq<nat>, x: nat)
    requires Unique(xs)
    ensures multiset(xs)[x] == if x in xs then 1 else 0
  {
    if xs != [] {
      OnceCount(xs[..|xs| - 1], x);
      assert xs == xs[..|xs| - 1] + [xs[|xs| - 1]];
    }
  }

  lemma SameOnce(a: seq<nat>, b: seq<nat>)
    requires Unique(a) && Unique(b) && forall x :: x in a <==> x in b
    ensures multiset(a) == multiset(b)
  {
    forall x: nat ensures multiset(a)[x] == multiset(b)[x] {
      OnceCount(a, x);
      OnceCount(b, x);
    }
  }

  lemma CountUpTo(xs: seq<nat>, n: nat)
    requires Unique(xs) && forall x :: x in xs <==> 0 <= x < n
    ensures |xs| == n
  {
    var all := seq(n, i requires 0 <= i < n => i);
    assert forall x: nat :: x in all <==> 0 <= x < n by {
      forall x: nat | 0 <= x < n ensures x in all { assert all[x] == x; }
    }
    SameOnce(xs, all);
    assert |multiset(xs)| == |multiset(all)|;
  }
}
