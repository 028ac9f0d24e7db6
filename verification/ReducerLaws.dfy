/** The algebra of the folds: what union and concat mean, when they refuse, and in which
    orders they do not care. */
module ReducerLaws {
  import opened Values
  import opened Ordering
  import opened Reducers
  import opened Engine
  import Sorting

  // ----- list union -----

  /** The items of `xs` seen neither in `acc` nor earlier in `xs`, in order. */
  function Novel(acc: seq<Value>, xs: seq<Value>): seq<Value> {
    if xs == [] then [] else
    var front, x := xs[..|xs| - 1], xs[|xs| - 1];
    Novel(acc, front) + if x in acc || x in front then [] else [x]
  }

  lemma {:induction false} ExtendHolds(acc: seq<Value>, xs: seq<Value>)
    ensures forall x :: x in Extend(acc, xs) <==> x in acc || x in xs
  {
    if xs != [] {
      ExtendHolds(acc, xs[..|xs| - 1]);
      assert xs == xs[..|xs| - 1] + [xs[|xs| - 1]];
    }
  }

  lemma {:induction false} UnionAppendsNovelItems(acc: seq<Value>, xs: seq<Value>)
    ensures Extend(acc, xs) == acc + Novel(acc, xs)
  {
    if xs != [] {
      UnionAppendsNovelItems(acc, xs[..|xs| - 1]);
      ExtendHolds(acc, xs[..|xs| - 1]);
    }
  }

  /** Where `x` occurs first. */
  function FirstIndex(xs: seq<Value>, x: Value): (i: nat)
    requires x in xs
    ensures i < |xs| && xs[i] == x && x !in xs[..i]
  {
    var last := |xs| - 1;
    assert xs == xs[..last] + [xs[last]];
    if x in xs[..last] then
      var i := FirstIndex(xs[..last], x);
      assert xs[..last][..i] == xs[..i];
      i
    else last
  }

  lemma {:induction false} NovelItems(acc: seq<Value>, xs: seq<Value>)
    ensures var items := Novel(acc, xs);
            && (forall x :: x in items <==> x in xs && x !in acc)
            && forall i, j :: 0 <= i < j < |items| ==> FirstIndex(xs, items[i]) < FirstIndex(xs, items[j])
  {
    if xs != [] {
      var front, x := xs[..|xs| - 1], xs[|xs| - 1];
      NovelItems(acc, front);
      assert xs == front + [x];
      var items := Novel(acc, xs);
      forall i, j | 0 <= i < j < |items| ensures FirstIndex(xs, items[i]) < FirstIndex(xs, items[j]) {
        assert items[i] == Novel(acc, front)[i];
        assert items[i] in front;
        if j < |Novel(acc, front)| { assert items[j] in front; }
      }
    }
  }

  /** List union: it succeeds exactly when the base is a list or absent and every
      contribution is a list; the base stays as a prefix, and after it come the items
      nobody had before, each once, in the order of their first occurrence. */
  lemma ListUnionLaw(field: string, base: Value, ws: seq<Write>)
    requires !(ws != [] && AllDicts(ws))
    ensures var r := UnionSpec(field, base, ws);
            && (r.Success? <==> BaseList(field, base).Success? && AllLists(ws))
            && (r.Success? ==>
                  var start, flat := BaseList(field, base).value, Flatten(ws);
                  && r.value.List? && start <= r.value.items
                  && var added := r.value.items[|start|..];
                     && (forall x :: x in added <==> x in flat && x !in start)
                     && forall i, j :: 0 <= i < j < |added| ==> FirstIndex(flat, added[i]) < FirstIndex(flat, added[j]))
  {
    hide FirstIndex;
    if UnionSpec(field, base, ws).Success? {
      var start, flat := BaseList(field, base).value, Flatten(ws);
      UnionAppendsNovelItems(start, flat);
      NovelItems(start, flat);
      assert Extend(start, flat)[|start|..] == Novel(start, flat);
    } else if AllLists(ws) && BaseList(field, base).Success? {
      assert forall w <- ws :: !w.value.Dict?;
    }
  }

  lemma {:induction false} ExtendKnown(acc: seq<Value>, xs: seq<Value>)
    requires forall x <- xs :: x in acc
    ensures Extend(acc, xs) == acc
  {
    if xs != [] { ExtendKnown(acc, xs[..|xs| - 1]); }
  }

  /** Folding the same contributions into the result again changes nothing. */
  lemma UnionIsIdempotent(field: string, base: Value, ws: seq<Write>)
    ensures var r := UnionSpec(field, base, ws);
            r.Success? && r.value.List? ==> UnionSpec(field, r.value, ws) == r
  {
    var r := UnionSpec(field, base, ws);
    if r.Success? && r.value.List? {
      var start := BaseList(field, base).value;
      ExtendHolds(start, Flatten(ws));
      ExtendKnown(r.value.items, Flatten(ws));
    }
  }

  lemma ListsTogether(a: seq<Write>, b: seq<Write>)
    ensures AllLists(a + b) <==> AllLists(a) && AllLists(b)
  {
    assert forall w :: w in a + b <==> w in a || w in b;
  }

  lemma FlattenSnoc(front: seq<Write>, last: Write)
    requires AllLists(front + [last])
    ensures AllLists(front) && last.value.List? && Flatten(front + [last]) == Flatten(front) + last.value.items
  {
    var ws := front + [last];
    ListsTogether(front, [last]);
    assert last in [last];
    assert ws[..|ws| - 1] == front && ws[|ws| - 1] == last;
  }

  lemma {:induction false} FlattenSplit(a: seq<Write>, b: seq<Write>)
    requires AllLists(a) && AllLists(b)
    ensures AllLists(a + b) && Flatten(a + b) == Flatten(a) + Flatten(b)
  {
    ListsTogether(a, b);
    if b == [] {
      assert a + b == a;
    } else {
      hide Flatten, AllLists;
      var front, last := b[..|b| - 1], b[|b| - 1];
      assert b == front + [last];
      assert a + b == (a + front) + [last];
      FlattenSnoc(front, last);
      FlattenSnoc(a + front, last);
      FlattenSplit(a, front);
    }
  }

  /** Contributions may be folded in two rounds. */
  lemma UnionComposes(field: string, base: Value, a: seq<Write>, b: seq<Write>)
    requires AllLists(a) && AllLists(b) && BaseList(field, base).Success?
    ensures var first := UnionSpec(field, base, a);
            first.Success? && UnionSpec(field, base, a + b) == UnionSpec(field, first.value, b)
  {
    var start := BaseList(field, base).value;
    FlattenSplit(a, b);
    ExtendSplit(start, Flatten(a), Flatten(b));
    ListsOnly(field, base, a);
    ListsOnly(field, base, a + b);
    ListsOnly(field, List(Extend(start, Flatten(a))), b);
  }

  lemma ListsOnly(field: string, base: Value, ws: seq<Write>)
    requires AllLists(ws) && BaseList(field, base).Success?
    ensures UnionSpec(field, base, ws) == Success(List(Extend(BaseList(field, base).value, Flatten(ws))))
  {
    if ws != [] { assert ws[0] in ws && !ws[0].value.Dict?; }
  }

  /** Concat may be folded in two rounds, too, and drops nothing. */
  lemma ConcatComposes(field: string, base: Value, a: seq<Write>, b: seq<Write>)
    requires AllLists(a) && AllLists(b) && BaseList(field, base).Success?
    ensures var first := ConcatSpec(field, base, a);
            && first.Success? && ConcatSpec(field, base, a + b) == ConcatSpec(field, List(first.value), b)
            && BaseList(field, base).value <= first.value
  {
    FlattenSplit(a, b);
    assert BaseList(field, base).value + Flatten(a) + Flatten(b) == BaseList(field, base).value + Flatten(a + b);
  }

  // ----- dict union -----

  /** Some contribution writes `key`. */
  ghost predicate Wrote(ws: seq<Write>, key: string)
    requires AllDicts(ws)
  {
    exists i :: 0 <= i < |ws| && key in ws[i].value.entries
  }

  /** All writers of each key write the same value. */
  ghost predicate WritersAgree(ws: seq<Write>)
    requires AllDicts(ws)
  {
    forall i, j, k :: 0 <= i < |ws| && 0 <= j < |ws| && k in ws[i].value.entries && k in ws[j].value.entries ==>
      ws[i].value.entries[k] == ws[j].value.entries[k]
  }

  /** `result` is `base` with every written key set to what its writers wrote. */
  ghost predicate Overwrites(result: map<string, Value>, base: map<string, Value>, ws: seq<Write>)
    requires AllDicts(ws)
  {
    && (forall k :: k in result <==> k in base || Wrote(ws, k))
    && (forall i, k :: 0 <= i < |ws| && k in ws[i].value.entries ==> k in result && result[k] == ws[i].value.entries[k])
    && (forall k :: k in base && !Wrote(ws, k) ==> k in result && result[k] == base[k])
  }

  predicate Clashing(written: map<string, Write>, entries: map<string, Value>, key: string) {
    key in written && key in entries && written[key].value != entries[key]
  }

  lemma {:induction false} FoldEntriesLaw(field: string, acc: Partial, branch: string, entries: map<string, Value>,
                                          keys: seq<string>)
    requires forall k <- keys :: k in entries
    ensures var r := FoldEntries(field, acc, branch, entries, keys);
            && (r.Success? <==> forall k <- keys :: !Clashing(acc.written, entries, k))
            && (r.Success? ==>
                  && (forall k :: k in r.value.result <==> k in acc.result || k in keys)
                  && (forall k <- r.value.result ::
                          r.value.result[k] == if k in keys then entries[k] else acc.result[k])
                  && (forall k :: k in r.value.written <==> k in acc.written || k in keys)
                  && (forall k <- r.value.written :: r.value.written[k].value ==
                        if k in acc.written then acc.written[k].value else entries[k]))
    decreases |keys|
  {
    if keys != [] {
      var key := keys[0];
      assert keys == [key] + keys[1..];
      if !Clashing(acc.written, entries, key) {
        var written := if key in acc.written then acc.written else acc.written[key := Write(branch, entries[key])];
        var next := Partial(acc.result[key := entries[key]], written);
        FoldEntriesLaw(field, next, branch, entries, keys[1..]);
        assert forall k <- keys[1..] :: Clashing(written, entries, k) <==> Clashing(acc.written, entries, k);
      }
    }
  }

  /** What one round of the dict fold does to the writes seen so far. */
  lemma FoldOneDict(field: string, acc: Partial, branch: string, entries: map<string, Value>)
    ensures var r := FoldEntries(field, acc, branch, entries, SortedKeys(entries.Keys));
            && (r.Success? <==> forall k :: !Clashing(acc.written, entries, k))
            && (r.Success? ==>
                  && r.value.result == acc.result + entries
                  && (forall k :: k in r.value.written <==> k in acc.written || k in entries)
                  && (forall k <- r.value.written :: r.value.written[k].value ==
                        if k in acc.written then acc.written[k].value else entries[k]))
  {
    hide SortedKeys, FoldEntries;
    FoldEntriesLaw(field, acc, branch, entries, SortedKeys(entries.Keys));
  }

  /** No contribution disagrees with an earlier write. */
  ghost predicate Compatible(written: map<string, Write>, ws: seq<Write>)
    requires AllDicts(ws)
  {
    forall i, k :: 0 <= i < |ws| && k in ws[i].value.entries && k in written ==>
      ws[i].value.entries[k] == written[k].value
  }

  lemma {:induction false} FoldDictsLaw(field: string, acc: Partial, ws: seq<Write>)
    requires AllDicts(ws)
    ensures var r := FoldDicts(field, acc, ws);
            && (r.Success? <==> WritersAgree(ws) && Compatible(acc.written, ws))
            && (r.Success? ==> Overwrites(r.value.result, acc.result, ws))
    decreases |ws|
  {
    hide FoldEntries;
    if ws != [] {
      var entries, rest := ws[0].value.entries, ws[1..];
      FoldOneDict(field, acc, ws[0].branch, entries);
      var step := FoldEntries(field, acc, ws[0].branch, entries, SortedKeys(entries.Keys));
      if step.Success? {
        FoldDictsLaw(field, step.value, rest);
        AgreeCons(acc.written, step.value.written, ws);
        var r := FoldDicts(field, acc, ws);
        if r.Success? { OverwritesCons(r.value.result, acc.result, ws); }
      } else {
        var k :| Clashing(acc.written, entries, k);
        assert k in ws[0].value.entries && k in acc.written;
      }
    }
  }

  lemma AgreeCons(before: map<string, Write>, after: map<string, Write>, ws: seq<Write>)
    requires AllDicts(ws) && ws != []
    requires forall k :: !Clashing(before, ws[0].value.entries, k)
    requires forall k :: k in after <==> k in before || k in ws[0].value.entries
    requires forall k <- after :: after[k].value == if k in before then before[k].value else ws[0].value.entries[k]
    ensures WritersAgree(ws[1..]) && Compatible(after, ws[1..]) <==> WritersAgree(ws) && Compatible(before, ws)
  {
    var entries, rest := ws[0].value.entries, ws[1..];
    if WritersAgree(rest) && Compatible(after, rest) {
      forall i, k | 0 <= i < |ws| && k in ws[i].value.entries && k in before
        ensures ws[i].value.entries[k] == before[k].value
      {
        if i == 0 { assert !Clashing(before, entries, k); } else { assert rest[i - 1] == ws[i]; }
      }
      forall i, j, k | 0 <= i < |ws| && 0 <= j < |ws| && k in ws[i].value.entries && k in ws[j].value.entries
        ensures ws[i].value.entries[k] == ws[j].value.entries[k]
      {
        if i > 0 { assert rest[i - 1] == ws[i]; }
        if j > 0 { assert rest[j - 1] == ws[j]; }
        assert !Clashing(before, entries, k);
      }
    }
    if WritersAgree(ws) && Compatible(before, ws) {
      forall i, k | 0 <= i < |rest| && k in rest[i].value.entries && k in after
        ensures rest[i].value.entries[k] == after[k].value
      {
        assert rest[i] == ws[i + 1];
      }
      assert WritersAgree(rest) by {
        forall i, j, k | 0 <= i < |rest| && 0 <= j < |rest| && k in rest[i].value.entries && k in rest[j].value.entries
          ensures rest[i].value.entries[k] == rest[j].value.entries[k]
        {
          assert rest[i] == ws[i + 1] && rest[j] == ws[j + 1];
        }
      }
    }
  }

  lemma OverwritesCons(result: map<string, Value>, base: map<string, Value>, ws: seq<Write>)
    requires AllDicts(ws) && ws != [] && WritersAgree(ws)
    requires Overwrites(result, base + ws[0].value.entries, ws[1..])
    ensures Overwrites(result, base, ws)
  {
    hide WritersAgree, Wrote;
    var entries, rest := ws[0].value.entries, ws[1..];
    forall k ensures Wrote(ws, k) <==> k in entries || Wrote(rest, k) { WroteCons(ws, k); }
    forall i, k | 0 <= i < |ws| && k in ws[i].value.entries ensures k in result && result[k] == ws[i].value.entries[k] {
      if i > 0 {
        assert rest[i - 1] == ws[i];
      } else if Wrote(rest, k) {
        LaterWriter(ws, k);
      }
    }
  }

  lemma WroteCons(ws: seq<Write>, k: string)
    requires AllDicts(ws) && ws != []
    ensures Wrote(ws, k) <==> k in ws[0].value.entries || Wrote(ws[1..], k)
  {
    var rest := ws[1..];
    if Wrote(ws, k) {
      var i :| 0 <= i < |ws| && k in ws[i].value.entries;
      if i > 0 { assert rest[i - 1] == ws[i]; }
    }
    if Wrote(rest, k) {
      var i :| 0 <= i < |rest| && k in rest[i].value.entries;
      assert ws[i + 1] == rest[i];
    }
  }

  lemma LaterWriter(ws: seq<Write>, k: string)
    requires AllDicts(ws) && ws != [] && WritersAgree(ws) && k in ws[0].value.entries && Wrote(ws[1..], k)
    ensures exists j :: 0 <= j < |ws[1..]| && k in ws[1..][j].value.entries
              && ws[1..][j].value.entries[k] == ws[0].value.entries[k]
  {
    var rest := ws[1..];
    var j :| 0 <= j < |rest| && k in rest[j].value.entries;
    assert ws[j + 1] == rest[j];
  }

  /** Dict union succeeds exactly when the base is a dict or absent and all writers of
      each key agree; then it is the base with those keys set. */
  lemma DictUnionLaw(field: string, base: Value, ws: seq<Write>)
    requires AllDicts(ws)
    ensures var r := UnionDictSpec(field, base, ws);
            && (r.Success? <==> (base.Null? || base.Dict?) && WritersAgree(ws))
            && (r.Success? ==> Overwrites(r.value, if base.Dict? then base.entries else map[], ws))
  {
    var start := BaseDict(field, base);
    if start.Success? { FoldDictsLaw(field, Partial(start.value, map[]), ws); }
  }

  lemma OverwritesUnique(a: map<string, Value>, b: map<string, Value>, base: map<string, Value>, ws: seq<Write>)
    requires AllDicts(ws) && Overwrites(a, base, ws) && Overwrites(b, base, ws)
    ensures a == b
  {
    forall k | k in a ensures k in b && a[k] == b[k] {
      if Wrote(ws, k) { var i :| 0 <= i < |ws| && k in ws[i].value.entries; }
    }
  }

  /** Permuting the contributions changes neither the success nor the result. */
  lemma DictUnionIgnoresOrder(field: string, base: Value, ws: seq<Write>, order: seq<Write>)
    requires AllDicts(ws) && multiset(order) == multiset(ws)
    ensures AllDicts(order)
    ensures var r, q := UnionDictSpec(field, base, ws), UnionDictSpec(field, base, order);
            (r.Success? <==> q.Success?) && (r.Success? ==> r == q)
  {
    Sorting.SameMembers(ws, order);
    DictUnionLaw(field, base, ws);
    DictUnionLaw(field, base, order);
    Reordered(ws, order);
    Reordered(order, ws);
    var r, q := UnionDictSpec(field, base, ws), UnionDictSpec(field, base, order);
    if r.Success? {
      var start := if base.Dict? then base.entries else map[];
      OverwritesReordered(q.value, start, order, ws);
      OverwritesUnique(r.value, q.value, start, ws);
    }
  }

  lemma Reordered(a: seq<Write>, b: seq<Write>)
    requires AllDicts(a) && AllDicts(b) && forall x :: x in a <==> x in b
    ensures WritersAgree(a) ==> WritersAgree(b)
  {
    if WritersAgree(a) {
      forall i, j, k | 0 <= i < |b| && 0 <= j < |b| && k in b[i].value.entries && k in b[j].value.entries
        ensures b[i].value.entries[k] == b[j].value.entries[k]
      {
        assert b[i] in a && b[j] in a;
        var m :| 0 <= m < |a| && a[m] == b[i];
        var n :| 0 <= n < |a| && a[n] == b[j];
      }
    }
  }

  lemma OverwritesReordered(result: map<string, Value>, base: map<string, Value>, a: seq<Write>, b: seq<Write>)
    requires AllDicts(a) && AllDicts(b) && forall x :: x in a <==> x in b
    requires Overwrites(result, base, a)
    ensures Overwrites(result, base, b)
  {
    forall k ensures Wrote(a, k) <==> Wrote(b, k) {
      if Wrote(a, k) {
        var i :| 0 <= i < |a| && k in a[i].value.entries;
        assert a[i] in b;
        var j :| 0 <= j < |b| && b[j] == a[i];
      }
      if Wrote(b, k) {
        var i :| 0 <= i < |b| && k in b[i].value.entries;
        assert b[i] in a;
        var j :| 0 <= j < |a| && a[j] == b[i];
      }
    }
    forall i, k | 0 <= i < |b| && k in b[i].value.entries ensures k in result && result[k] == b[i].value.entries[k] {
      assert b[i] in a;
      var j :| 0 <= j < |a| && a[j] == b[i];
    }
  }

  // ----- serialisability of default folds -----

  /** The admitted deltas merged one after another. */
  function MergeAll(s: State, items: seq<Contribution>): State
    decreases |items|
  {
    if items == [] then s else MergeAll(Merge(s, items[0].delta), items[1..])
  }

  /** Any two deltas agree where both write. */
  ghost predicate DeltasAgree(items: seq<Contribution>) {
    forall a, b, k :: a in items && b in items && k in a.delta && k in b.delta ==> a.delta[k] == b.delta[k]
  }

  lemma {:induction false} WritesAreDeltas(items: seq<Contribution>, key: string)
    ensures forall w :: w in Writes(items, key) <==>
              exists c :: c in items && key in c.delta && w == Write(c.branch, c.delta[key])
  {
    if items != [] {
      WritesAreDeltas(items[1..], key);
      assert items == [items[0]] + items[1..];
      forall w | w in Writes(items, key)
        ensures exists c :: c in items && key in c.delta && w == Write(c.branch, c.delta[key])
      {
        if w in Writes(items[1..], key) {
          var c :| c in items[1..] && key in c.delta && w == Write(c.branch, c.delta[key]);
          assert c in items;
        } else {
          assert items[0] in items;
        }
      }
      forall w | exists c :: c in items && key in c.delta && w == Write(c.branch, c.delta[key])
        ensures w in Writes(items, key)
      {
        var c :| c in items && key in c.delta && w == Write(c.branch, c.delta[key]);
        if c != items[0] { assert c in items[1..]; }
      }
    }
  }

  /** A field's writers agree. */
  ghost predicate AgreeOn(items: seq<Contribution>, key: string) {
    forall a, b :: a in items && b in items && key in a.delta && key in b.delta ==> a.delta[key] == b.delta[key]
  }

  lemma DefaultFieldLaw(items: seq<Contribution>, key: string, base: Value)
    requires key in Keys(items) && Writes(items, key) != []
    ensures var r := ReduceField(key, RejectConflict, base, Writes(items, key));
            && (r.Success? <==> AgreeOn(items, key))
            && (r.Success? ==> forall c <- items :: key in c.delta ==> c.delta[key] == r.value)
  {
    var ws := Writes(items, key);
    WritesAreDeltas(items, key);
    assert ws[0] in ws;
    var r := ReduceField(key, RejectConflict, base, ws);
    if r.Success? {
      forall c | c in items && key in c.delta ensures c.delta[key] == r.value {
        assert Write(c.branch, c.delta[key]) in ws;
      }
    }
    if AgreeOn(items, key) {
      forall w | w in ws ensures w.value == ws[0].value {}
    }
  }

  lemma {:induction false} DefaultFold(ctx: Ctx, region: Region, state: State, completed: nat, items: seq<Contribution>,
                                       keys: seq<string>, acc: Fold, log: Log)
    requires forall k <- keys :: k in Keys(items) && k !in ctx.graph.reducers
    ensures var f := FoldKeys(ctx, region, state, completed, items, keys, acc, log);
            && !f.Ended?
            && (f.Go? <==> forall k <- keys :: AgreeOn(items, k))
            && (f.Go? ==>
                  && (forall k :: k in f.value.merged <==> k in acc.merged || k in keys)
                  && (forall c <- items :: forall k <- c.delta :: k in keys ==> f.value.merged[k] == c.delta[k])
                  && (forall k <- acc.merged :: k !in keys ==> f.value.merged[k] == acc.merged[k]))
    decreases |keys|
  {
    hide ReduceField, AgreeOn;
    if keys != [] {
      var key := keys[0];
      assert keys == [key] + keys[1..];
      WritesExist(items, key);
      DefaultFieldLaw(items, key, Field(region.snapshot, key));
      var one := FoldKey(ctx, region, state, completed, items, key, acc, log);
      if one.Go? {
        DefaultFold(ctx, region, state, completed, items, keys[1..], one.value, one.log);
      }
    }
  }

  lemma {:induction false} MergeAllIsMerge(s: State, merged: Delta, items: seq<Contribution>)
    requires forall c <- items :: forall k <- c.delta :: k in merged && merged[k] == c.delta[k]
    ensures Keys(items) <= merged.Keys
    ensures forall k :: k in MergeAll(s, items) <==> k in s || k in Keys(items)
    ensures forall k <- MergeAll(s, items) :: MergeAll(s, items)[k] == if k in Keys(items) then merged[k] else s[k]
    decreases |items|
  {
    KeysAreWritten(items, merged);
    if items != [] {
      assert items[0] in items;
      assert forall c <- items[1..] :: c in items;
      MergeAllIsMerge(Merge(s, items[0].delta), merged, items[1..]);
    }
  }

  lemma KeysAreWritten(items: seq<Contribution>, merged: Delta)
    requires forall c <- items :: forall k <- c.delta :: k in merged && merged[k] == c.delta[k]
    ensures Keys(items) <= merged.Keys
  {
    hide Keys;
    forall k | k in Keys(items) ensures k in merged {
      var c := KeyFrom(items, k);
    }
  }

  /** A region whose written fields have no declared reducer folds exactly when its
      admitted deltas agree, and then its state is that of merging them one after
      another, in whatever order. */
  lemma DefaultFoldSerialises(ctx: Ctx, region: Region, state: State, completed: nat, items: seq<Contribution>,
                              order: seq<Contribution>, log: Log)
    requires forall k <- Keys(items) :: k !in ctx.graph.reducers
    requires multiset(order) == multiset(items)
    ensures var f := FoldKeys(ctx, region, state, completed, items, SortedKeys(Keys(items)), Fold(map[], map[]), log);
            && (f.Go? <==> DeltasAgree(items))
            && (f.Go? ==> Merge(region.snapshot, f.value.merged) == MergeAll(region.snapshot, order))
  {
    hide FoldKeys, SortedKeys, AgreeOn, DeltasAgree, Keys, MergeAll;
    var keys := SortedKeys(Keys(items));
    DefaultFold(ctx, region, state, completed, items, keys, Fold(map[], map[]), log);
    var f := FoldKeys(ctx, region, state, completed, items, keys, Fold(map[], map[]), log);
    AgreeEverywhere(items);
    if f.Go? {
      forall c, k | c in items && k in c.delta ensures k in f.value.merged && f.value.merged[k] == c.delta[k] {
        KeyOf(items, c, k);
      }
      assert f.value.merged.Keys == Keys(items);
      MergedInAnyOrder(region.snapshot, f.value.merged, items, order);
    }
  }

  lemma MergedInAnyOrder(s: State, merged: Delta, items: seq<Contribution>, order: seq<Contribution>)
    requires merged.Keys == Keys(items) && multiset(order) == multiset(items)
    requires forall c <- items :: forall k <- c.delta :: k in merged && merged[k] == c.delta[k]
    ensures Merge(s, merged) == MergeAll(s, order)
  {
    hide MergeAll, Keys;
    Sorting.SameMembers(order, items);
    MergeAllIsMerge(s, merged, order);
    SameKeys(items, order);
    SameKeys(order, items);
  }

  lemma SameKeys(items: seq<Contribution>, order: seq<Contribution>)
    requires forall c <- items :: c in order
    ensures Keys(items) <= Keys(order)
  {
    hide Keys;
    forall k | k in Keys(items) ensures k in Keys(order) {
      var c := KeyFrom(items, k);
      KeyOf(order, c, k);
    }
  }

  lemma {:induction false} KeyFrom(items: seq<Contribution>, k: string) returns (c: Contribution)
    requires k in Keys(items)
    ensures c in items && k in c.delta
  {
    if k in items[0].delta { c := items[0]; } else { c := KeyFrom(items[1..], k); }
  }

  lemma {:induction false} KeyOf(items: seq<Contribution>, c: Contribution, k: string)
    requires c in items && k in c.delta
    ensures k in Keys(items)
  {
    if c != items[0] { KeyOf(items[1..], c, k); }
  }

  lemma AgreeEverywhere(items: seq<Contribution>)
    ensures DeltasAgree(items) <==> forall k <- Keys(items) :: AgreeOn(items, k)
  {
    if forall k <- Keys(items) :: AgreeOn(items, k) {
      forall a, b, k | a in items && b in items && k in a.delta && k in b.delta ensures a.delta[k] == b.delta[k] {
        KeyOf(items, a, k);
        assert AgreeOn(items, k);
      }
    }
  }
}
