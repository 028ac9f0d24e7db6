/** Listener fan-out over one run: ordered, fail-closed delivery of detached payloads. */
module Observer {
  import opened Values
  import opened Protocol
  import opened Engine
  import opened Publication

  /** An observation as the scheduler or a listener holds it: `event` says what happened, and
      state and delta are mutable objects, which may be shared at any depth. */
  datatype Payload = Payload(event: Observation, state: Mutable, delta: Option<Mutable>) {
    /** Every object it may lead to. */
    function Cells(): set<Cell> {
      {state.root} + state.cells + if delta.Some? then {delta.value.root} + delta.value.cells else {}
    }

    predicate Valid()
      reads Cells()
    {
      && state.Valid() && (delta.Some? ==> delta.value.Valid())
      && STATUS in state.Reading() && METADATA in state.Reading() && VISITED in state.Reading()
      && (delta.Some? <==> event.NodeEnd? || event.SuperstepCommit?)
    }

    /** The observation it shows right now. */
    function Reading(): Observation
      requires Valid()
      reads Cells()
    {
      var s: State := state.Reading();
      match event
      case EdgeSelected(node, target, steps, _) => EdgeSelected(node, target, steps, s)
      case NodeStart(node, steps, _) => NodeStart(node, steps, s)
      case NodeEnd(node, steps, _, _) => NodeEnd(node, steps, s, delta.value.Reading())
      case SuperstepStart(node, target, steps, branches, _) => SuperstepStart(node, target, steps, branches, s)
      case SuperstepCommit(node, target, steps, branches, _, _, provenance) =>
        SuperstepCommit(node, target, steps, branches, s, delta.value.Reading(), provenance)
      case Interrupted(node, steps, branches, _) => Interrupted(node, steps, branches, s)
      case Stopped(node, steps, _) => Stopped(node, steps, s)
      case Done(steps, _) => Done(steps, s)
    }
  }

  /** One call of a listener: which observation, which listener, and what it was shown. */
  datatype Call = Call(index: nat, listener: nat, shown: Observation)

  /** A listener decides by all calls so far whether it raises. It keeps what it was handed, and
      may assign to any object any listener was ever handed. */
  datatype Listener = Listener(raises: seq<Call> -> Option<Fault>, scribbles: (seq<Call>, set<Cell>) -> seq<Edit>)

  /** What draining one run gives: observations, and how the stream ends. */
  datatype Stream = Stream(observations: seq<Observation>, failure: Option<Error>, closing: Option<Fault>)

  datatype Outcome =
    | Returned(state: State)
    | ListenerFailed(fault: Fault)
    | GraphFailed(error: Error)
    | CleanupFailed(fault: Fault)
    | BothFailed(primary: Outcome, cleanup: Fault)

  // ----- the order of delivery -----

  /** The first `n` calls of one observation's round, in registration order. */
  function Round(o: Observation, index: nat, n: nat): (calls: seq<Call>)
    ensures |calls| == n
  {
    seq(n, j requires 0 <= j < n => Call(index, j, o))
  }

  /** The observation-by-listener product. */
  function Product(observations: seq<Observation>, listeners: nat): (calls: seq<Call>)
    ensures |calls| == |observations| * listeners
  {
    if observations == [] then [] else
    var last := |observations| - 1;
    Product(observations[..last], listeners) + Round(observations[last], last, listeners)
  }

  /** No call of the log made its listener raise. */
  ghost predicate AllHeard(listeners: seq<Listener>, log: seq<Call>) {
    forall n :: 0 <= n < |log| ==> log[n].listener < |listeners|
                                   && listeners[log[n].listener].raises(log[..n + 1]).None?
  }

  /** Everything before the last call was heard; the last call raised `fault`. */
  ghost predicate FailsLast(listeners: seq<Listener>, log: seq<Call>, fault: Fault) {
    && log != []
    && AllHeard(listeners, log[..|log| - 1])
    && log[|log| - 1].listener < |listeners|
    && listeners[log[|log| - 1].listener].raises(log) == Some(fault)
  }

  /** `delivery` first, then the plugins. */
  function Registered(delivery: Option<Listener>, plugins: seq<Listener>): seq<Listener> {
    (if delivery.Some? then [delivery.value] else []) + plugins
  }

  /** The state `ainvoke` returns: that of the last observation. */
  function FinalState(initial: State, observations: seq<Observation>): State {
    if observations == [] then initial else observations[|observations| - 1].state
  }

  lemma HeardSnoc(listeners: seq<Listener>, log: seq<Call>, call: Call)
    requires AllHeard(listeners, log)
    requires call.listener < |listeners| && listeners[call.listener].raises(log + [call]).None?
    ensures AllHeard(listeners, log + [call])
  {
    var longer := log + [call];
    forall n | 0 <= n < |longer|
      ensures longer[n].listener < |listeners| && listeners[longer[n].listener].raises(longer[..n + 1]).None?
    {
      if n < |log| { assert longer[..n + 1] == log[..n + 1]; } else { assert longer[..n + 1] == longer; }
    }
  }

  // ----- delivery -----

  /** `_detached_observation`: new objects all the way down. */
  method Detach(live: Payload) returns (copy: Payload)
    requires live.Valid()
    ensures fresh(copy.Cells()) && copy.Valid() && copy.Reading() == live.Reading()
  {
    hide Mutable.Reading, Nested;
    var state := DeepCopy(live.state);
    RootIsIn(state);
    if live.delta.Some? {
      var delta := DeepCopy(live.delta.value);
      RootIsIn(delta);
      copy := Payload(live.event, state, Some(delta));
    } else {
      copy := Payload(live.event, state, None);
    }
  }

  lemma RootIsIn(d: Mutable)
    requires d.Valid()
    ensures d.root in d.cells
  {
  }

  /** What a listener does to the objects it can reach. */
  method Scribble(edits: seq<Edit>, handed: set<Cell>)
    modifies handed
  {
    for i := 0 to |edits| {
      if edits[i].cell in handed { edits[i].cell.form := edits[i].form; }
    }
  }

  /** Call every listener with its own detached copy of the live payload. Whatever listeners
      assign, to anything that was ever handed out and at any depth, the next is shown the same
      observation, and no object but those handed out is ever written. */
  method Deliver(live: Payload, index: nat, listeners: seq<Listener>, before: seq<Call>, handed: set<Cell>)
    returns (log: seq<Call>, failure: Option<Fault>, later: set<Cell>)
    requires AllHeard(listeners, before) && live.Valid() && live.Cells() !! handed
    modifies handed
    ensures handed <= later && fresh(later - handed)
    ensures live.Valid() && live.Reading() == old(live.Reading())
    ensures failure.None? ==> log == before + Round(live.Reading(), index, |listeners|) && AllHeard(listeners, log)
    ensures failure.Some? ==>
              |before| < |log| <= |before| + |listeners|
              && log == before + Round(live.Reading(), index, |listeners|)[..|log| - |before|]
              && FailsLast(listeners, log, failure.value)
  {
    hide Payload.Reading, Payload.Valid;
    log, failure, later := before, None, handed;
    for j := 0 to |listeners|
      invariant handed <= later && fresh(later - handed)
      invariant live.Valid() && live.Reading() == old(live.Reading())
      invariant failure.None? && log == before + Round(live.Reading(), index, j) && AllHeard(listeners, log)
    {
      var copy := Detach(live);
      later := later + copy.Cells();
      var call := Call(index, j, copy.Reading());
      Scribble(listeners[j].scribbles(log + [call], later), later);
      failure := listeners[j].raises(log + [call]);
      assert Round(live.Reading(), index, j + 1) == Round(live.Reading(), index, j) + [call];
      if failure.Some? {
        ghost var heard := log;
        log := log + [call];
        assert log[..|log| - 1] == heard;
        assert Round(live.Reading(), index, |listeners|)[..j + 1] == Round(live.Reading(), index, j + 1);
        return;
      }
      HeardSnoc(listeners, log, call);
      log := log + [call];
    }
  }

  lemma ProductPrefix(observations: seq<Observation>, listeners: nat, k: nat)
    requires k <= |observations|
    ensures Product(observations[..k], listeners) <= Product(observations, listeners)
    decreases |observations| - k
  {
    if k < |observations| {
      assert observations[..k + 1][..k] == observations[..k];
      ProductPrefix(observations, listeners, k + 1);
    } else {
      assert observations[..k] == observations;
    }
  }

  function Close(primary: Outcome, closing: Option<Fault>): Outcome {
    match closing
    case None => primary
    case Some(fault) => if primary.Returned? then CleanupFailed(fault) else BothFailed(primary, fault)
  }

  lemma NothingDrawn(initial: State, observations: seq<Observation>, listeners: seq<Listener>)
    ensures FinalState(initial, observations[..0]) == initial
    ensures Product(observations[..0], |listeners|) == [] && AllHeard(listeners, [])
  {
  }

  lemma OneMoreDrawn(initial: State, observations: seq<Observation>, listeners: nat, k: nat)
    requires k < |observations|
    ensures FinalState(initial, observations[..k + 1]) == observations[k].state
    ensures Product(observations[..k + 1], listeners)
         == Product(observations[..k], listeners) + Round(observations[k], k, listeners)
  {
    assert observations[..k + 1][..k] == observations[..k];
  }

  /** The run's observations are these payloads, in whatever objects it holds them. */
  predicate Holds(live: seq<Payload>, observations: seq<Observation>)
    reads set p, c | p in live && c in p.Cells() :: c
  {
    && |live| == |observations|
    && forall i :: 0 <= i < |live| ==> live[i].Valid() && live[i].Reading() == observations[i]
  }

  /** `run_with_plugins`. The log is a prefix of the product; a failing listener is its last
      entry, and no later observation is drawn from the run; without a failure every
      listener heard everything and the returned state is the run's own, whatever the
      listeners did to their payloads. No object that existed before is written. */
  method RunWithPlugins(initial: State, live: seq<Payload>, stream: Stream, delivery: Option<Listener>,
                        plugins: seq<Listener>)
    returns (log: seq<Call>, drawn: nat, outcome: Outcome)
    requires Holds(live, stream.observations)
    ensures var listeners := Registered(delivery, plugins);
            && drawn <= |stream.observations|
            && log <= Product(stream.observations, |listeners|)
            && ((exists fault :: FailsLast(listeners, log, fault)
                                 && outcome == Close(ListenerFailed(fault), stream.closing)
                                 && drawn == log[|log| - 1].index + 1)
                || (log == Product(stream.observations, |listeners|) && AllHeard(listeners, log)
                    && drawn == |stream.observations|
                    && outcome == Close(if stream.failure.Some? then GraphFailed(stream.failure.value)
                                        else Returned(FinalState(initial, stream.observations)), stream.closing)))
  {
    hide Payload.Reading, Payload.Valid, Product, Round, AllHeard, FinalState;
    var listeners := Registered(delivery, plugins);
    var state := initial;
    var handed: set<Cell> := {};
    log, drawn := [], 0;
    NothingDrawn(initial, stream.observations, listeners);
    for k := 0 to |live|
      invariant drawn == k && state == FinalState(initial, stream.observations[..k])
      invariant log == Product(stream.observations[..k], |listeners|) && AllHeard(listeners, log)
      invariant fresh(handed)
      invariant forall i :: 0 <= i < |live| ==> live[i].Valid() && live[i].Reading() == stream.observations[i]
    {
      drawn := k + 1;
      state := live[k].Reading().state;
      ghost var before := log;
      OneMoreDrawn(initial, stream.observations, |listeners|, k);
      ProductPrefix(stream.observations, |listeners|, k + 1);
      var failure: Option<Fault>;
      label Drawn:
      log, failure, handed := Deliver(live[k], k, listeners, log, handed);
      forall i | 0 <= i < |live| ensures live[i].Valid() && live[i].Reading() == stream.observations[i] {
        assert old@Drawn(live[i].Valid() && live[i].Reading() == stream.observations[i]);
        assert unchanged@Drawn(live[i].Cells());
      }
      if failure.Some? {
        LastOfRound(before, stream.observations[k], k, |listeners|, log);
        outcome := Close(ListenerFailed(failure.value), stream.closing);
        assert FailsLast(listeners, log, failure.value);
        return;
      }
    }
    assert stream.observations[..|stream.observations|] == stream.observations;
    var primary := if stream.failure.Some? then GraphFailed(stream.failure.value) else Returned(state);
    outcome := Close(primary, stream.closing);
  }

  lemma LastOfRound(before: seq<Call>, o: Observation, k: nat, n: nat, log: seq<Call>)
    requires |before| < |log| <= |before| + n && log == before + Round(o, k, n)[..|log| - |before|]
    ensures log[|log| - 1].index == k && log <= before + Round(o, k, n)
  {
    assert log[|log| - 1] == Round(o, k, n)[|log| - |before| - 1];
  }

  // ----- over a run of the scheduler -----

  /** `ainvoke`. */
  function Invoke(ctx: Ctx, initial: State): Result<State, Error> {
    var run := Run(ctx, initial);
    if run.Raise? then Failure(run.error) else Success(FinalState(initial, Obs(run.log)))
  }

  function StreamOf(ctx: Ctx, initial: State): Stream {
    var run := Run(ctx, initial);
    Stream(Obs(run.log), if run.Raise? then Some(run.error) else None, None)
  }

  /** Watching a run changes nothing about it: unless a listener raises, the outcome is
      that of `ainvoke`. */
  method Watch(ctx: Ctx, initial: State, live: seq<Payload>, delivery: Option<Listener>, plugins: seq<Listener>)
    returns (log: seq<Call>, outcome: Outcome)
    requires Holds(live, Obs(Run(ctx, initial).log))
    ensures log <= Product(Obs(Run(ctx, initial).log), |Registered(delivery, plugins)|)
    ensures outcome.ListenerFailed? ==> FailsLast(Registered(delivery, plugins), log, outcome.fault)
    ensures !outcome.ListenerFailed? ==>
              outcome == (match Invoke(ctx, initial) case Success(s) => Returned(s) case Failure(e) => GraphFailed(e))
  {
    hide Run, Obs, AllHeard, Product;
    var drawn;
    log, drawn, outcome := RunWithPlugins(initial, live, StreamOf(ctx, initial), delivery, plugins);
  }
}
