/** Folds for concurrent branch writes: specification functions, the loops that
    compute them, and their algebra. */
module Reducers {
  import opened Values
  import opened Ordering
  import opened Protocol

  datatype FoldAnswer = Folds(value: Value) | Fails(fault: Fault)

  datatype Reducer =
    | RejectConflict
    | First
    | Last
    | Concat
    | Union
    | Custom(fn: (Value, seq<Value>) -> FoldAnswer, ref: Option<string>)

  /** One branch's write to the field being folded. */
  datatype Write = Write(branch: string, value: Value)

  function Branches(ws: seq<Write>): (names: seq<string>)
    ensures |names| == |ws|
  {
    seq(|ws|, i requires 0 <= i < |ws| => ws[i].branch)
  }

  function Payloads(ws: seq<Write>): (vs: seq<Value>)
    ensures |vs| == |ws|
  {
    seq(|ws|, i requires 0 <= i < |ws| => ws[i].value)
  }

  predicate AllCopyable(ws: seq<Write>) { forall w <- ws :: Copyable(w.value) }

  function ReduceField(field: string, reducer: Reducer, base: Value, ws: seq<Write>): Result<Value, Error>
    requires ws != []
  {
    match reducer
    case RejectConflict =>
      if forall w <- ws :: w.value == ws[0].value then Success(ws[0].value)
      else Failure(Conflict(field, Branches(ws)))
    case First => Success(ws[0].value)
    case Last => Success(ws[|ws| - 1].value)
    case Concat => var items :- ConcatSpec(field, base, ws); Success(List(items))
    case Union => UnionSpec(field, base, ws)
    case Custom(fn, _) =>
      if !AllCopyable(ws) then Failure(Uncopyable) else
      match fn(base, Payloads(ws))
      case Folds(v) => Success(v)
      case Fails(fault) => Failure(Raised(fault))
  }

  // ----- the list and dict folds -----

  function BaseList(field: string, base: Value): Result<seq<Value>, Error> {
    match base
    case Null => Success([])
    case List(items) => Success(items)
    case _ => Failure(BadReducerValue(field))
  }

  predicate AllLists(ws: seq<Write>) { forall w <- ws :: w.value.List? }

  predicate AllDicts(ws: seq<Write>) { forall w <- ws :: w.value.Dict? }

  function Flatten(ws: seq<Write>): seq<Value>
    requires AllLists(ws)
  {
    if ws == [] then [] else Flatten(ws[..|ws| - 1]) + ws[|ws| - 1].value.items
  }

  function ConcatSpec(field: string, base: Value, ws: seq<Write>): Result<seq<Value>, Error> {
    var start :- BaseList(field, base);
    if AllLists(ws) then Success(start + Flatten(ws)) else Failure(BadReducerValue(field))
  }

  /** Append every item not yet present, in order. */
  function Extend(acc: seq<Value>, items: seq<Value>): seq<Value>
  {
    if items == [] then acc
    else
      var before := Extend(acc, items[..|items| - 1]);
      var x := items[|items| - 1];
      if x in before then before else before + [x]
  }

  function UnionSpec(field: string, base: Value, ws: seq<Write>): Result<Value, Error> {
    if ws != [] && AllDicts(ws) then var m :- UnionDictSpec(field, base, ws); Success(Dict(m))
    else if exists w <- ws :: w.value.Dict? then Failure(BadReducerValue(field))
    else
      var start :- BaseList(field, base);
      if AllLists(ws) then Success(List(Extend(start, Flatten(ws)))) else Failure(BadReducerValue(field))
  }

  function BaseDict(field: string, base: Value): Result<map<string, Value>, Error> {
    match base
    case Null => Success(map[])
    case Dict(entries) => Success(entries)
    case _ => Failure(BadReducerValue(field))
  }

  function UnionDictSpec(field: string, base: Value, ws: seq<Write>): Result<map<string, Value>, Error>
    requires AllDicts(ws)
  {
    var start :- BaseDict(field, base);
    var folded :- FoldDicts(field, Partial(start, map[]), ws);
    Success(folded.result)
  }

  /** What the dict fold has built so far: the result, and each key's first writer. */
  datatype Partial = Partial(result: map<string, Value>, written: map<string, Write>)

  /** Write `entries` key by key; a key first written with another value is a conflict. */
  function FoldEntries(field: string, acc: Partial, branch: string, entries: map<string, Value>, keys: seq<string>)
    : Result<Partial, Error>
    requires forall k <- keys :: k in entries
    decreases |keys|
  {
    if keys == [] then Success(acc) else
    var key := keys[0];
    var item := entries[key];
    if key in acc.written && acc.written[key].value != item then
      Failure(Conflict(field, [acc.written[key].branch, branch]))
    else
      var written := if key in acc.written then acc.written else acc.written[key := Write(branch, item)];
      FoldEntries(field, Partial(acc.result[key := item], written), branch, entries, keys[1..])
  }

  function FoldDicts(field: string, acc: Partial, ws: seq<Write>): Result<Partial, Error>
    requires AllDicts(ws)
    decreases |ws|
  {
    if ws == [] then Success(acc) else
    var entries := ws[0].value.entries;
    var next :- FoldEntries(field, acc, ws[0].branch, entries, SortedKeys(entries.Keys));
    FoldDicts(field, next, ws[1..])
  }

  // ----- the loops -----

  method RejectConflictLoop(field: string, ws: seq<Write>) returns (r: Result<Value, Error>)
    requires ws != []
    ensures r == ReduceField(field, RejectConflict, Null, ws)
  {
    var first := ws[0].value;
    for i := 1 to |ws|
      invariant forall w <- ws[..i] :: w.value == first
    {
      if ws[i].value != first {
        assert ws[i] in ws;
        return Failure(Conflict(field, Branches(ws)));
      }
      assert ws[..i + 1] == ws[..i] + [ws[i]];
    }
    assert ws[..|ws|] == ws;
    return Success(first);
  }

  method ConcatLoop(field: string, base: Value, ws: seq<Write>) returns (r: Result<seq<Value>, Error>)
    ensures r == ConcatSpec(field, base, ws)
  {
    var start := BaseList(field, base);
    if start.Failure? { return start; }
    var result := start.value;
    for i := 0 to |ws|
      invariant AllLists(ws[..i])
      invariant result == start.value + Flatten(ws[..i])
    {
      if !ws[i].value.List? {
        assert ws[i] in ws;
        return Failure(BadReducerValue(field));
      }
      assert ws[..i + 1][..i] == ws[..i];
      result := result + ws[i].value.items;
    }
    assert ws[..|ws|] == ws;
    return Success(result);
  }

  lemma {:induction false} ExtendSplit(acc: seq<Value>, xs: seq<Value>, ys: seq<Value>)
    ensures Extend(acc, xs + ys) == Extend(Extend(acc, xs), ys)
  {
    if ys == [] {
      assert xs + ys == xs;
    } else {
      var rest := ys[..|ys| - 1];
      ExtendSplit(acc, xs, rest);
      assert (xs + ys)[..|xs + ys| - 1] == xs + rest;
    }
  }

  method UnionLoop(field: string, base: Value, ws: seq<Write>) returns (r: Result<Value, Error>)
    ensures r == UnionSpec(field, base, ws)
  {
    if ws != [] && AllDicts(ws) {
      var m := UnionDictLoop(field, base, ws);
      return if m.Success? then Success(Dict(m.value)) else Failure(m.error);
    }
    if exists w <- ws :: w.value.Dict? { return Failure(BadReducerValue(field)); }
    var start := BaseList(field, base);
    if start.Failure? { return Failure(start.error); }
    var result := start.value;
    for i := 0 to |ws|
      invariant AllLists(ws[..i])
      invariant result == Extend(start.value, Flatten(ws[..i]))
    {
      if !ws[i].value.List? {
        assert ws[i] in ws;
        return Failure(BadReducerValue(field));
      }
      var items := ws[i].value.items;
      ghost var before := result;
      for j := 0 to |items|
        invariant result == Extend(before, items[..j])
      {
        assert items[..j + 1][..j] == items[..j];
        if items[j] !in result {
          result := result + [items[j]];
        }
      }
      assert items[..|items|] == items;
      assert ws[..i + 1][..i] == ws[..i];
      ExtendSplit(start.value, Flatten(ws[..i]), items);
    }
    assert ws[..|ws|] == ws;
    return Success(List(result));
  }

  method UnionDictLoop(field: string, base: Value, ws: seq<Write>) returns (r: Result<map<string, Value>, Error>)
    requires AllDicts(ws)
    ensures r == UnionDictSpec(field, base, ws)
  {
    var start := BaseDict(field, base);
    if start.Failure? { return start; }
    var result := start.value;
    var written: map<string, Write> := map[];
    for i := 0 to |ws|
      invariant FoldDicts(field, Partial(result, written), ws[i..]) == FoldDicts(field, Partial(start.value, map[]), ws)
    {
      var branch, entries := ws[i].branch, ws[i].value.entries;
      assert ws[i..][0] == ws[i] && ws[i..][1..] == ws[i + 1..];
      var keys := SortedKeys(entries.Keys);
      ghost var before := Partial(result, written);
      for j := 0 to |keys|
        invariant FoldEntries(field, Partial(result, written), branch, entries, keys[j..])
               == FoldEntries(field, before, branch, entries, keys)
      {
        var key := keys[j];
        var item := entries[key];
        assert keys[j..][0] == key && keys[j..][1..] == keys[j + 1..];
        if key in written && written[key].value != item {
          return Failure(Conflict(field, [written[key].branch, branch]));
        }
        if key !in written {
          written := written[key := Write(branch, item)];
        }
        result := result[key := item];
      }
    }
    return Success(result);
  }

  /** One field's fold, by whichever loop its reducer stands for. */
  method FoldWrites(field: string, reducer: Reducer, base: Value, ws: seq<Write>) returns (r: Result<Value, Error>)
    requires ws != []
    ensures r == ReduceField(field, reducer, base, ws)
  {
    hide ConcatSpec, UnionSpec;
    match reducer
    case RejectConflict => r := RejectConflictLoop(field, ws);
    case First => return Success(ws[0].value);
    case Last => return Success(ws[|ws| - 1].value);
    case Concat =>
      var items := ConcatLoop(field, base, ws);
      return if items.Success? then Success(List(items.value)) else Failure(items.error);
    case Union => r := UnionLoop(field, base, ws);
    case Custom(fn, _) =>
      if !AllCopyable(ws) { return Failure(Uncopyable); }
      match fn(base, Payloads(ws)) {
        case Folds(v) => return Success(v);
        case Fails(fault) => return Failure(Raised(fault));
      }
  }
}
