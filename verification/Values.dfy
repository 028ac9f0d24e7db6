/** Values carried by graph state, and the isolated next generation of a state. */
module Values {
  import opened Ordering

  datatype Option<+T> = None | Some(value: T)

  datatype Result<+T, +E> = Success(value: T) | Failure(error: E) {
    predicate IsFailure() { Failure? }

    function PropagateFailure<U>(): Result<U, E>
      requires Failure?
    {
      Failure(error)
    }

    function Extract(): T
      requires Success?
    {
      value
    }
  }

  /** A field value. `Opaque` stands for every Python object that is not canonical
      JSON (a non-finite float, a file handle, ...); it may refuse to be deep-copied. */
  datatype Value =
    | Null
    | Bool(b: bool)
    | Num(n: real)
    | Str(s: string)
    | List(items: seq<Value>)
    | Dict(entries: map<string, Value>)
    | Opaque(id: nat, copyable: bool)

  /** `copy.deepcopy` succeeds. */
  predicate Copyable(v: Value) {
    match v
    case List(items) => forall x <- items :: Copyable(x)
    case Dict(entries) => forall k <- entries :: Copyable(entries[k])
    case Opaque(_, c) => c
    case _ => true
  }

  /** `json.dumps(..., allow_nan=False)` succeeds. */
  predicate Json(v: Value) {
    match v
    case List(items) => forall x <- items :: Json(x)
    case Dict(entries) => forall k <- entries :: Json(entries[k])
    case Opaque(_, _) => false
    case _ => true
  }

  type Delta = map<string, Value>

  predicate CopyableDelta(d: Delta) { forall k <- d :: Copyable(d[k]) }

  predicate JsonDelta(d: Delta) { forall k <- d :: Json(d[k]) }

  const STATUS := "status"
  const METADATA := "metadata"
  const VISITED := "nodes_visited"

  /** A state always has the three fields the scheduler itself reads. */
  type State = s: map<string, Value> | STATUS in s && METADATA in s && VISITED in s
    witness map[STATUS := Str("idle"), METADATA := Dict(map[]), VISITED := List([])]

  function Merge(s: State, d: Delta): State { s + d }

  /** `getattr(state, key, None)`. */
  function Field(s: State, key: string): Value { if key in s then s[key] else Null }

  /** What `[*value]` unpacks to; `None` when Python raises TypeError. A dict
      unpacks to its keys, here in ascending order. */
  function Unpack(v: Value): Option<seq<Value>> {
    match v
    case List(items) => Some(items)
    case Str(s) => Some(seq(|s|, i requires 0 <= i < |s| => Str([s[i]])))
    case Dict(entries) => Some(Strs(SortedKeys(entries.Keys)))
    case _ => None
  }

  function Strs(names: seq<string>): (vs: seq<Value>)
    ensures |vs| == |names|
  {
    seq(|names|, i requires 0 <= i < |names| => Str(names[i]))
  }

  /** The state with `names` appended to `nodes_visited`. */
  function Visit(s: State, names: seq<string>): Option<State> {
    match Unpack(s[VISITED])
    case None => None
    case Some(before) => Some(Merge(s, map[VISITED := List(before + Strs(names))]))
  }

  /** The state with `status` replaced and `extra` written over `metadata`;
      `None` when `metadata` is no mapping. */
  function Annotate(s: State, status: string, extra: map<string, Value>): Option<State> {
    match s[METADATA]
    case Dict(entries) => Some(Merge(s, map[STATUS := Str(status), METADATA := Dict(entries + extra)]))
    case _ => None
  }
}
