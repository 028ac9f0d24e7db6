/** The vocabulary of the dispatch gate: decisions, requests, and every way a run
    can end by an exception. */
module Protocol {
  import opened Values

  /** A user-supplied callable or hook raised. Core tells only three families apart. */
  datatype Fault =
    | Interrupt(prompt: Value, payload: Value)
    | GateRefusal(reason: string)
    | Other(id: nat)

  datatype Decision = Allow | Refuse(reason: string) | Stop(reason: string)

  /** What awaiting a gate decision yields; `Garbage` is not a decision at all. */
  datatype Answer = Says(decision: Decision) | Garbage | Throws(fault: Fault)

  /** What awaiting an optional hook yields; `Unawaitable` is Core's own TypeError. */
  datatype Hook = Completed | Unawaitable | Crashes(fault: Fault)

  datatype Boundary = AtNode | AtRouter | AtFanOut | AtJoin | AtReducer

  datatype DispatchRequest = DispatchRequest(
    boundary: Boundary, nodes: seq<string>, steps: nat, source: Option<string>, batch: Option<string>)

  datatype CommitBoundary = NodeCommit | RegionCommit

  /** SHA-256 of the canonical JSON of a delta, taken to be injective. */
  datatype Digest = Sha256(content: Delta)

  datatype CommitRequest = CommitRequest(
    boundary: CommitBoundary, nodes: seq<string>, steps: nat, source: Option<string>, digest: Digest,
    batch: Option<string>)

  datatype Error =
    | MaxStepsExceeded(steps: nat, lastNode: string)
    | UnknownNode(name: string)
    | UnknownRoute(name: string)
    | EmptyRoute
    | RouteNotString
    | FanOutAsRoute
    | NotADict(node: string)
    | Uncopyable
    | NotJson
    | NotIterable
    | NotMapping
    | Refused(reason: string, nodes: seq<string>)
    | NotADecision
    | NotAwaitable
    | Raised(fault: Fault)
    | JoinRefused(source: string, errors: seq<Error>)
    | StartsFailed(source: string, errors: seq<Error>)
    | NoBranchAdmitted
    | ForeignBranch(source: string, name: string)
    | Conflict(field: string, branches: seq<string>)
    | BadReducerValue(field: string)

  predicate IsInterrupt(e: Error) { e.Raised? && e.fault.Interrupt? }

  /** `isinstance(error, GateRefused)`. */
  predicate IsGateRefused(e: Error) { e.Refused? || (e.Raised? && e.fault.GateRefusal?) }

  /** `GateDecision.__post_init__`: an allow carries no reason, the others need one. */
  function MakeDecision(verdict: string, reason: Option<string>): (r: Option<Decision>)
    ensures r == Some(Allow) <==> verdict == "allow" && reason == None
    ensures forall why :: r == Some(Refuse(why)) <==> verdict == "refuse" && reason == Some(why) && why != ""
    ensures forall why :: r == Some(Stop(why)) <==> verdict == "stop" && reason == Some(why) && why != ""
  {
    if verdict == "allow" then (if reason == None then Some(Allow) else None)
    else if reason == None || reason.value == "" then None
    else if verdict == "refuse" then Some(Refuse(reason.value))
    else if verdict == "stop" then Some(Stop(reason.value))
    else None
  }

  /** `checked` followed by `_enforce`: go on, stop with a reason, or raise. */
  function Enforce(answer: Answer, nodes: seq<string>): Result<Option<string>, Error> {
    match answer
    case Says(Allow) => Success(None)
    case Says(Stop(reason)) => Success(Some(reason))
    case Says(Refuse(reason)) => Failure(Refused(reason, nodes))
    case Garbage => Failure(NotADecision)
    case Throws(fault) => Failure(Raised(fault))
  }

  function HookError(hook: Hook): (error: Option<Error>)
    ensures error.None? <==> hook.Completed?
  {
    match hook
    case Completed => None
    case Unawaitable => Some(NotAwaitable)
    case Crashes(fault) => Some(Raised(fault))
  }
}
