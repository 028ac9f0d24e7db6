/** What each reducer makes of the contributions to a field, said of the values themselves,
    and what every committed field of every run therefore holds. */
module FoldMeaning {
  import opened Values
  import opened Ordering
  import opened Protocol
  import opened Topology
  import opened Reducers
  import opened Engine
  import opened Origins
  import ReducerLaws

  // ----- positions -----

  predicate Lists(values: seq<Value>) { forall v <- values :: v.List? }

  predicate Dicts(values: seq<Value>) { forall v <- values :: v.Dict? }

  /** How many items the first `n` lists hold together. */
  function Offset(values: seq<Value>, n: nat): nat
    requires n <= |values| && Lists(values)
  {
    if n == 0 then 0 else Offset(values, n - 1) + |values[n - 1].items|
  }

  /** Item `j` of list `i` comes after all items of the lists before it and the `j` items before it
      in its own. */
  predicate Placed(values: seq<Value>, flat: seq<Value>, i: nat, j: nat)
    requires Lists(values) && i < |values| && j < |values[i].items|
  {
    Offset(values, i) + j < |flat| && flat[Offset(values, i) + j] == values[i].items[j]
  }

  /** `flat` is the lists end to end. */
  ghost predicate EndToEnd(values: seq<Value>, flat: seq<Value>) {
    && Lists(values) && |flat| == Offset(values, |values|)
    && forall i, j :: 0 <= i < |values| && 0 <= j < |values[i].items| ==> Placed(values, flat, i, j)
  }

  lemma {:induction false} OffsetFits(values: seq<Value>, i: nat, n: nat)
    requires Lists(values) && i < n <= |values|
    ensures Offset(values, i) + |values[i].items| <= Offset(values, n)
  {
    if i < n - 1 { OffsetFits(values, i, n - 1); }
  }

  lemma {:induction false} OffsetPrefix(values: seq<Value>, front: seq<Value>, n: nat)
    requires Lists(values) && front <= values && n <= |front|
    ensures Lists(front) && Offset(front, n) == Offset(values, n)
  {
    assert forall v <- front :: v in values;
    if n > 0 { OffsetPrefix(values, front, n - 1); }
  }

  /** The values of the writes, in their order. */
  predicate Carries(ws: seq<Write>, values: seq<Value>) {
    |values| == |ws| && forall i :: 0 <= i < |ws| ==> values[i] == ws[i].value
  }

  lemma SameKinds(ws: seq<Write>, values: seq<Value>)
    requires Carries(ws, values)
    ensures AllLists(ws) <==> Lists(values)
    ensures AllDicts(ws) <==> Dicts(values)
  {
    forall v | v in values ensures exists w <- ws :: w.value == v {
      var i :| 0 <= i < |values| && values[i] == v;
      assert ws[i] in ws;
    }
    forall w | w in ws ensures w.value in values {
      var i :| 0 <= i < |ws| && ws[i] == w;
      assert values[i] == w.value;
    }
  }

  /** Flattening drops nothing, adds nothing and keeps the order. */
  lemma {:induction false} FlattenIsEndToEnd(ws: seq<Write>, values: seq<Value>)
    requires Carries(ws, values) && Lists(values)
    ensures AllLists(ws) && EndToEnd(values, Flatten(ws))
  {
    SameKinds(ws, values);
    if ws != [] {
      var n := |ws| - 1;
      var front, last := values[..n], values[n];
      OffsetPrefix(values, front, n);
      FlattenIsEndToEnd(ws[..n], front);
      var flat := Flatten(ws);
      assert ws[n].value == last && |front| == n;
      assert flat == Flatten(ws[..n]) + last.items;
      assert |flat| == Offset(values, n) + |last.items| == Offset(values, |values|);
      forall i, j | 0 <= i < |values| && 0 <= j < |values[i].items|
        ensures Placed(values, flat, i, j)
      {
        OffsetFits(values, i, |values|);
        OffsetPrefix(values, front, if i < n then i else n);
        if i < n {
          OffsetFits(values, i, n);
          assert front[i] == values[i];
          assert Placed(front, Flatten(ws[..n]), i, j);
        } else {
          assert flat[Offset(values, n) + j] == last.items[j];
        }
      }
      assert EndToEnd(values, flat);
    } else {
      assert values == [];
      assert EndToEnd(values, Flatten(ws));
    }
  }

  // ----- concat and custom reducers -----

  /** The items a list fold starts from. */
  function StartItems(base: Value): seq<Value> { if base.List? then base.items else [] }

  /** Concat succeeds exactly if the base is a list or absent and every contribution is a list;
      the result is the base and then the contributions end to end. */
  lemma ConcatLaw(field: string, base: Value, ws: seq<Write>, values: seq<Value>)
    requires ws != [] && Carries(ws, values)
    ensures var r := ReduceField(field, Concat, base, ws);
            && (r.Success? <==> (base.Null? || base.List?) && Lists(values))
            && (r.Success? ==>
                  && r.value.List? && StartItems(base) <= r.value.items
                  && EndToEnd(values, r.value.items[|StartItems(base)|..]))
            && (r.Failure? ==> r.error == BadReducerValue(field))
  {
    hide EndToEnd, Flatten, Carries, AllLists, Lists;
    SameKinds(ws, values);
    if Lists(values) && (base.Null? || base.List?) {
      FlattenIsEndToEnd(ws, values);
      assert (StartItems(base) + Flatten(ws))[|StartItems(base)|..] == Flatten(ws);
    }
  }

  /** A custom reducer is called with the base and the contributions in branch order, if all of
      them can be copied, and its answer is the result. */
  lemma CustomLaw(field: string, fn: (Value, seq<Value>) -> FoldAnswer, ref: Option<string>, base: Value,
                  ws: seq<Write>, values: seq<Value>)
    requires ws != [] && Carries(ws, values)
    ensures var r := ReduceField(field, Custom(fn, ref), base, ws);
            if exists v <- values :: !Copyable(v) then r == Failure(Uncopyable)
            else
              match fn(base, values)
              case Folds(v) => r == Success(v)
              case Fails(fault) => r == Failure(Raised(fault))
  {
    assert Payloads(ws) == values;
    if exists v <- values :: !Copyable(v) {
      var v :| v in values && !Copyable(v);
      var i :| 0 <= i < |values| && values[i] == v;
      assert ws[i] in ws;
    } else {
      forall w | w in ws ensures Copyable(w.value) {
        var i :| 0 <= i < |ws| && ws[i] == w;
        assert values[i] in values;
      }
    }
  }

  // ----- what a reducer means -----

  /** `v` is a list that keeps the base and then holds, once each and in the order of their
      first occurrence in the contributions, the items the base does not have. */
  ghost predicate ListUnion(base: Value, values: seq<Value>, v: Value) {
    var start := StartItems(base);
    && Lists(values) && (base.Null? || base.List?) && v.List? && start <= v.items
    && exists flat :: EndToEnd(values, flat)
         && var added := v.items[|start|..];
            && (forall x :: x in added <==> x in flat && x !in start)
            && forall i, j :: 0 <= i < j < |added| ==>
                 ReducerLaws.FirstIndex(flat, added[i]) < ReducerLaws.FirstIndex(flat, added[j])
  }

  /** `v` is a dict that is the base with every key set that some contribution holds, to the value
      all of those hold. */
  ghost predicate DictUnion(base: Value, values: seq<Value>, v: Value) {
    && Dicts(values) && (base.Null? || base.Dict?) && v.Dict?
    && (forall k :: k in v.entries <==> (base.Dict? && k in base.entries) || exists d <- values :: k in d.entries)
    && (forall d <- values, k <- d.entries :: k in v.entries && d.entries[k] == v.entries[k])
    && (forall k <- v.entries :: (forall d <- values :: k !in d.entries) ==> v.entries[k] == base.entries[k])
  }

  /** What it means for `v` to be the fold of `values` over `base`. */
  ghost predicate Means(reducer: Reducer, base: Value, values: seq<Value>, v: Value)
    requires values != []
  {
    match reducer
    case RejectConflict => forall x <- values :: x == v
    case First => v == values[0]
    case Last => v == values[|values| - 1]
    case Concat =>
      && (base.Null? || base.List?) && v.List? && StartItems(base) <= v.items
      && EndToEnd(values, v.items[|StartItems(base)|..])
    case Union => if Dicts(values) then DictUnion(base, values, v) else ListUnion(base, values, v)
    case Custom(fn, _) => (forall x <- values :: Copyable(x)) && fn(base, values) == Folds(v)
  }

  lemma UnionOfLists(field: string, base: Value, ws: seq<Write>, values: seq<Value>)
    requires ws != [] && Carries(ws, values) && !Dicts(values)
    ensures var r := ReduceField(field, Union, base, ws);
            && (r.Success? <==> (base.Null? || base.List?) && Lists(values))
            && (r.Success? ==> ListUnion(base, values, r.value))
  {
    hide ReducerLaws.FirstIndex, EndToEnd;
    SameKinds(ws, values);
    ReducerLaws.ListUnionLaw(field, base, ws);
    if Lists(values) { FlattenIsEndToEnd(ws, values); }
  }

  lemma UnionOfDicts(field: string, base: Value, ws: seq<Write>, values: seq<Value>)
    requires ws != [] && Carries(ws, values) && Dicts(values)
    ensures var r := ReduceField(field, Union, base, ws);
            && (r.Success? <==>
                  && (base.Null? || base.Dict?)
                  && forall a, b, k :: a in values && b in values && k in a.entries && k in b.entries ==>
                       a.entries[k] == b.entries[k])
            && (r.Success? ==> DictUnion(base, values, r.value))
  {
    SameKinds(ws, values);
    ReducerLaws.DictUnionLaw(field, base, ws);
    AgreementIsOfValues(ws, values);
    var r := UnionDictSpec(field, base, ws);
    if r.Success? {
      var start := if base.Dict? then base.entries else map[];
      OverwritesIsUnion(base, start, ws, values, r.value);
    }
  }

  lemma AgreementIsOfValues(ws: seq<Write>, values: seq<Value>)
    requires Carries(ws, values) && AllDicts(ws) && Dicts(values)
    ensures ReducerLaws.WritersAgree(ws) <==>
              forall a, b, k :: a in values && b in values && k in a.entries && k in b.entries ==>
                a.entries[k] == b.entries[k]
  {
    if ReducerLaws.WritersAgree(ws) {
      forall a, b, k | a in values && b in values && k in a.entries && k in b.entries
        ensures a.entries[k] == b.entries[k]
      {
        var i :| 0 <= i < |values| && values[i] == a;
        var j :| 0 <= j < |values| && values[j] == b;
        assert ws[i].value == a && ws[j].value == b;
      }
    } else {
      var i, j, k :| 0 <= i < |ws| && 0 <= j < |ws| && k in ws[i].value.entries && k in ws[j].value.entries &&
                     ws[i].value.entries[k] != ws[j].value.entries[k];
      assert values[i] in values && values[j] in values;
    }
  }

  lemma OverwritesIsUnion(base: Value, start: map<string, Value>, ws: seq<Write>, values: seq<Value>,
                          result: map<string, Value>)
    requires Carries(ws, values) && AllDicts(ws) && Dicts(values) && (base.Null? || base.Dict?)
    requires start == (if base.Dict? then base.entries else map[]) && ReducerLaws.Overwrites(result, start, ws)
    ensures DictUnion(base, values, Dict(result))
  {
    forall k ensures ReducerLaws.Wrote(ws, k) <==> exists d <- values :: k in d.entries {
      if ReducerLaws.Wrote(ws, k) {
        var i :| 0 <= i < |ws| && k in ws[i].value.entries;
        assert values[i] in values;
      }
      if exists d <- values :: k in d.entries {
        var d :| d in values && k in d.entries;
        var i :| 0 <= i < |values| && values[i] == d;
        assert ws[i].value == d;
      }
    }
    forall d, k | d in values && k in d.entries ensures k in result && d.entries[k] == result[k] {
      var i :| 0 <= i < |values| && values[i] == d;
      assert ws[i].value == d;
    }
  }

  lemma AgreementLaw(field: string, base: Value, ws: seq<Write>, values: seq<Value>)
    requires ws != [] && Carries(ws, values)
    ensures var r := ReduceField(field, RejectConflict, base, ws);
            && (r.Success? <==> forall x <- values :: x == values[0])
            && (r.Success? ==> r.value == values[0])
  {
    if forall w <- ws :: w.value == ws[0].value {
      forall x | x in values ensures x == values[0] {
        var i :| 0 <= i < |values| && values[i] == x;
        assert ws[i] in ws;
      }
    }
    if forall x <- values :: x == values[0] {
      forall w | w in ws ensures w.value == ws[0].value {
        var i :| 0 <= i < |ws| && ws[i] == w;
        assert values[i] in values;
      }
    }
  }

  /** What a fold returns is what its reducer means, and it returns something whenever its
      reducer means something. */
  lemma ReduceMeans(field: string, reducer: Reducer, base: Value, ws: seq<Write>, values: seq<Value>)
    requires ws != [] && Carries(ws, values)
    ensures var r := ReduceField(field, reducer, base, ws);
            && (r.Success? ==> Means(reducer, base, values, r.value))
            && ((exists v :: Means(reducer, base, values, v)) ==> r.Success?)
  {
    hide ReduceField, DictUnion, ListUnion, EndToEnd;
    match reducer
    case RejectConflict =>
      AgreementLaw(field, base, ws, values);
      assert values[0] in values;
    case First => EndsAreTaken(field, base, ws, values);
    case Last => EndsAreTaken(field, base, ws, values);
    case Concat =>
      ConcatLaw(field, base, ws, values);
      forall v | Means(reducer, base, values, v) ensures Lists(values) { EndToEndIsOfLists(values, v, base); }
    case Union =>
      if Dicts(values) {
        UnionOfDicts(field, base, ws, values);
        forall v | DictUnion(base, values, v) ensures ReduceField(field, Union, base, ws).Success? {
          UnionAgrees(base, values, v);
        }
      } else {
        UnionOfLists(field, base, ws, values);
        forall v | ListUnion(base, values, v) ensures ReduceField(field, Union, base, ws).Success? {
          UnionIsOfLists(base, values, v);
        }
      }
    case Custom(fn, ref) => CustomLaw(field, fn, ref, base, ws, values);
  }

  lemma EndsAreTaken(field: string, base: Value, ws: seq<Write>, values: seq<Value>)
    requires ws != [] && Carries(ws, values)
    ensures ReduceField(field, First, base, ws) == Success(values[0])
    ensures ReduceField(field, Last, base, ws) == Success(values[|values| - 1])
  {
  }

  lemma EndToEndIsOfLists(values: seq<Value>, v: Value, base: Value)
    requires values != [] && Means(Concat, base, values, v)
    ensures Lists(values)
  {
  }

  lemma UnionAgrees(base: Value, values: seq<Value>, v: Value)
    requires DictUnion(base, values, v)
    ensures base.Null? || base.Dict?
    ensures forall a, b, k :: a in values && b in values && k in a.entries && k in b.entries ==>
              a.entries[k] == b.entries[k]
  {
    forall a, b, k | a in values && b in values && k in a.entries && k in b.entries
      ensures a.entries[k] == b.entries[k]
    {
      assert a.entries[k] == v.entries[k] && b.entries[k] == v.entries[k];
    }
  }

  lemma UnionIsOfLists(base: Value, values: seq<Value>, v: Value)
    requires ListUnion(base, values, v)
    ensures Lists(values) && (base.Null? || base.List?)
  {
  }

  // ----- how a fold fails -----

  /** `i` is the first write that holds key `k`. */
  ghost predicate WritesFirst(ws: seq<Write>, k: string, i: nat)
    requires AllDicts(ws)
  {
    i < |ws| && k in ws[i].value.entries && forall l :: 0 <= l < i ==> k !in ws[l].value.entries
  }

  /** The conflict is between the first writer of some key and a later one that disagrees. */
  ghost predicate NamesConflict(field: string, ws: seq<Write>, error: Error)
    requires AllDicts(ws)
  {
    exists i: nat, j: nat, k: string ::
      && WritesFirst(ws, k, i) && i < j < |ws| && k in ws[j].value.entries
      && ws[i].value.entries[k] != ws[j].value.entries[k]
      && error == Conflict(field, [ws[i].branch, ws[j].branch])
  }

  /** After `n` writes, and perhaps some keys of the next, `written` knows each key's first writer. */
  ghost predicate Knows(ws: seq<Write>, written: map<string, Write>, n: nat)
    requires AllDicts(ws) && n <= |ws|
  {
    && (forall l, k :: 0 <= l < n && k in ws[l].value.entries ==> k in written)
    && forall k <- written :: exists i: nat ::
         i <= n && WritesFirst(ws, k, i) && written[k] == Write(ws[i].branch, ws[i].value.entries[k])
  }

  lemma {:induction false} EntriesConflict(field: string, ws: seq<Write>, n: nat, acc: Partial, keys: seq<string>)
    requires AllDicts(ws) && n < |ws| && Knows(ws, acc.written, n)
    requires forall k <- keys :: k in ws[n].value.entries
    ensures var r := FoldEntries(field, acc, ws[n].branch, ws[n].value.entries, keys);
            && (r.Failure? ==> NamesConflict(field, ws, r.error))
            && (r.Success? ==>
                  && Knows(ws, r.value.written, n) && (forall k <- acc.written :: k in r.value.written)
                  && forall k <- keys :: k in r.value.written)
    decreases |keys|
  {
    if keys != [] {
      var key, entries := keys[0], ws[n].value.entries;
      assert keys == [key] + keys[1..];
      if key in acc.written && acc.written[key].value != entries[key] {
        var i: nat :| i <= n && WritesFirst(ws, key, i)
                      && acc.written[key] == Write(ws[i].branch, ws[i].value.entries[key]);
        assert i < n;
      } else {
        var own := Write(ws[n].branch, entries[key]);
        var written := if key in acc.written then acc.written else acc.written[key := own];
        assert key !in acc.written ==> WritesFirst(ws, key, n);
        EntriesConflict(field, ws, n, Partial(acc.result[key := entries[key]], written), keys[1..]);
      }
    }
  }

  lemma {:induction false} DictsConflict(field: string, ws: seq<Write>, n: nat, acc: Partial)
    requires AllDicts(ws) && n <= |ws| && Knows(ws, acc.written, n) && AllDicts(ws[n..])
    ensures FoldDicts(field, acc, ws[n..]).Failure? ==> NamesConflict(field, ws, FoldDicts(field, acc, ws[n..]).error)
    decreases |ws| - n
  {
    hide FoldEntries, NamesConflict;
    if n < |ws| {
      var entries := ws[n].value.entries;
      var keys := SortedKeys(entries.Keys);
      EntriesConflict(field, ws, n, acc, keys);
      var next := FoldEntries(field, acc, ws[n].branch, entries, keys);
      assert ws[n..][0] == ws[n] && ws[n..][1..] == ws[n + 1..];
      if next.Success? {
        assert forall k <- entries :: k in keys;
        KnowsNext(ws, next.value.written, n);
        DictsConflict(field, ws, n + 1, next.value);
      }
    }
  }

  lemma KnowsNext(ws: seq<Write>, written: map<string, Write>, n: nat)
    requires AllDicts(ws) && n < |ws| && Knows(ws, written, n) && forall k <- ws[n].value.entries :: k in written
    ensures Knows(ws, written, n + 1)
  {
    forall k | k in written
      ensures exists i: nat ::
        i <= n + 1 && WritesFirst(ws, k, i) && written[k] == Write(ws[i].branch, ws[i].value.entries[k])
    {
      var i: nat :| i <= n && WritesFirst(ws, k, i) && written[k] == Write(ws[i].branch, ws[i].value.entries[k]);
    }
  }

  /** How each fold fails: disagreeing branches are all named, of disagreeing dicts the first writer
      of the key and the one that disagrees; what is no list or dict where one is needed is
      a bad value of the field; a custom reducer's fault is raised as it is. */
  lemma FailureLaw(field: string, reducer: Reducer, base: Value, ws: seq<Write>)
    requires ws != [] && ReduceField(field, reducer, base, ws).Failure?
    ensures var error := ReduceField(field, reducer, base, ws).error;
            match reducer
            case RejectConflict =>
              && error.Conflict? && error.field == field && |error.branches| == |ws|
              && forall i :: 0 <= i < |ws| ==> error.branches[i] == ws[i].branch
            case First => false
            case Last => false
            case Concat => error == BadReducerValue(field)
            case Union =>
              if AllDicts(ws) && (base.Null? || base.Dict?) then NamesConflict(field, ws, error)
              else error == BadReducerValue(field)
            case Custom(_, _) => error.Uncopyable? || error.Raised?
  {
    hide NamesConflict, FoldDicts;
    if reducer.Union? && AllDicts(ws) && (base.Null? || base.Dict?) {
      var start := if base.Dict? then base.entries else map[];
      assert ws[0..] == ws;
      DictsConflict(field, ws, 0, Partial(start, map[]));
    }
  }

  // ----- every committed field -----

  /** What the branches wrote to a field, in their order. */
  function Contributed(items: seq<Contribution>, key: string): seq<Value> {
    if items == [] then [] else
    (if key in items[0].delta then [items[0].delta[key]] else []) + Contributed(items[1..], key)
  }

  lemma {:induction false} WritesCarry(items: seq<Contribution>, key: string)
    ensures Carries(Writes(items, key), Contributed(items, key))
  {
    if items != [] { WritesCarry(items[1..], key); }
  }

  /** Every field of every committed region holds what its reducer means: of the value the field
      had in the snapshot, and of what exactly the branches shown to end before the commit
      wrote to it, in their order. A field without a declared reducer holds the value all of
      them wrote. */
  lemma EveryCommittedFieldIsFolded(ctx: Ctx, state: State, i: nat, key: string)
    requires ctx.graph.Valid() && i < |Run(ctx, state).log|
    requires Run(ctx, state).log[i].Observed? && Run(ctx, state).log[i].obs.SuperstepCommit?
    requires key in Run(ctx, state).log[i].obs.delta
    ensures var log := Run(ctx, state).log;
            var values := Contributed(Ends(log[..i]), key);
            && Snapshot(log[..i]).Some? && values != []
            && var snapshot := Snapshot(log[..i]).value;
               Means(if key in ctx.graph.reducers then ctx.graph.reducers[key] else RejectConflict,
                     if key in snapshot then snapshot[key] else Null, values, log[i].obs.delta[key])
  {
    hide Run, Graph.Valid, Ends, Snapshot, Means, ReduceField, Writes, Contributed, Keys;
    EveryPublicationHasItsOrigin(ctx, state, i);
    var log := Run(ctx, state).log;
    var items, snapshot := Ends(log[..i]), Snapshot(log[..i]).value;
    WritesCarry(items, key);
    assert FieldFolds(ctx.graph, snapshot, items, key, log[i].obs.delta[key]);
    ReduceMeans(key, ReducerFor(ctx.graph, key), Field(snapshot, key), Writes(items, key), Contributed(items, key));
  }
}
