/** JSON trees as the spec module sees them: raw metadata, its frozen form, and what is
    written out. */
module JsonTrees {
  import opened Values
  import opened Ordering

  /** `JFloat` is a finite float by its shortest text, `JArr` is a list, `JTup` a tuple, `JBad` anything that is not
      JSON-compatible (a non-finite float, a mapping with other than string keys, an arbitrary object). */
  datatype Json =
    | JNull
    | JBool(b: bool)
    | JInt(n: int)
    | JFloat(repr: string)
    | JText(s: string)
    | JArr(items: seq<Json>)
    | JTup(items: seq<Json>)
    | JObj(entries: map<string, Json>)
    | JBad

  /** Immutable metadata: tuples instead of lists, all the way down. */
  predicate Frozen(j: Json) {
    match j
    case JArr(_) => false
    case JTup(items) => forall x <- items :: Frozen(x)
    case JObj(entries) => forall k <- entries :: Frozen(entries[k])
    case JBad => false
    case _ => true
  }

  /** Plain JSON: lists instead of tuples, all the way down. */
  predicate Plain(j: Json) {
    match j
    case JTup(_) => false
    case JArr(items) => forall x <- items :: Plain(x)
    case JObj(entries) => forall k <- entries :: Plain(entries[k])
    case JBad => false
    case _ => true
  }

  /** `_freeze_json`; `None` is its TypeError. */
  function Freeze(j: Json): Option<Json>
    decreases j, 1, 0
  {
    match j
    case JBad => None
    case JArr(items) => var frozen := FreezeItems(j, |items|); if frozen.Some? then Some(JTup(frozen.value)) else None
    case JTup(items) => var frozen := FreezeItems(j, |items|); if frozen.Some? then Some(JTup(frozen.value)) else None
    case JObj(entries) =>
      var keys := SortedKeys(entries.Keys);
      var frozen := FreezeKeys(j, keys);
      if frozen.Some? then Some(JObj(frozen.value)) else None
    case _ => Some(j)
  }

  /** The first `n` items, frozen. */
  function FreezeItems(j: Json, n: nat): (r: Option<seq<Json>>)
    requires (j.JArr? || j.JTup?) && n <= |j.items|
    ensures r.Some? ==> |r.value| == n && forall i :: 0 <= i < n ==> Freeze(j.items[i]) == Some(r.value[i])
    ensures r.None? ==> exists i :: 0 <= i < n && Freeze(j.items[i]).None?
    decreases j, 0, n
  {
    if n == 0 then Some([]) else
    var front := FreezeItems(j, n - 1);
    if front.None? then None else
    var last := Freeze(j.items[n - 1]);
    if last.None? then None else Some(front.value + [last.value])
  }

  function FreezeKeys(j: Json, keys: seq<string>): (r: Option<map<string, Json>>)
    requires j.JObj? && forall k <- keys :: k in j.entries
    ensures r.Some? ==> (forall k :: k in r.value <==> k in keys)
    ensures r.Some? ==> forall k <- r.value :: Freeze(j.entries[k]) == Some(r.value[k])
    ensures r.None? ==> exists k <- keys :: Freeze(j.entries[k]).None?
    decreases j, 0, |keys|
  {
    if keys == [] then Some(map[]) else
    var key := keys[|keys| - 1];
    assert keys == keys[..|keys| - 1] + [key];
    var front := FreezeKeys(j, keys[..|keys| - 1]);
    if front.None? then None else
    var last := Freeze(j.entries[key]);
    if last.None? then None else Some(front.value[key := last.value])
  }

  /** `_thaw_json`. */
  function Thaw(j: Json): Json
    decreases j, 1, 0
  {
    match j
    case JTup(items) => JArr(ThawItems(j, |items|))
    case JObj(entries) => JObj(ThawKeys(j, SortedKeys(entries.Keys)))
    case _ => j
  }

  function ThawItems(j: Json, n: nat): (r: seq<Json>)
    requires j.JTup? && n <= |j.items|
    ensures |r| == n && forall i :: 0 <= i < n ==> r[i] == Thaw(j.items[i])
    decreases j, 0, n
  {
    if n == 0 then [] else ThawItems(j, n - 1) + [Thaw(j.items[n - 1])]
  }

  function ThawKeys(j: Json, keys: seq<string>): (r: map<string, Json>)
    requires j.JObj? && forall k <- keys :: k in j.entries
    ensures forall k :: k in r <==> k in keys
    ensures forall k <- r :: r[k] == Thaw(j.entries[k])
    decreases j, 0, |keys|
  {
    if keys == [] then map[] else
    var key := keys[|keys| - 1];
    assert keys == keys[..|keys| - 1] + [key];
    ThawKeys(j, keys[..|keys| - 1])[key := Thaw(j.entries[key])]
  }

  /** Freezing accepts exactly what holds nothing bad, and what it returns is frozen. */
  lemma {:induction false} FreezeIsFrozen(j: Json)
    ensures Freeze(j).Some? ==> Frozen(Freeze(j).value)
    ensures Freeze(j).Some? && j.JObj? ==> Freeze(j).value.JObj?
  {
    hide FreezeItems, FreezeKeys, ThawItems, ThawKeys, SortedKeys, Ascending;
    match j
    case JArr(items) => forall i | 0 <= i < |items| { FreezeIsFrozen(items[i]); }
    case JTup(items) => forall i | 0 <= i < |items| { FreezeIsFrozen(items[i]); }
    case JObj(entries) => forall k | k in entries { FreezeIsFrozen(entries[k]); }
    case _ =>
  }

  /** Thawing frozen metadata and freezing it again gives it back. */
  lemma {:induction false} FreezeThaw(j: Json)
    requires Frozen(j)
    ensures Plain(Thaw(j)) && Freeze(Thaw(j)) == Some(j)
  {
    hide FreezeItems, FreezeKeys, ThawItems, ThawKeys, SortedKeys, Ascending;
    match j
    case JTup(items) =>
      forall i | 0 <= i < |items| ensures Plain(Thaw(items[i])) && Freeze(Thaw(items[i])) == Some(items[i]) {
        assert items[i] in items;
        FreezeThaw(items[i]);
      }
      var frozen := FreezeItems(Thaw(j), |items|);
      assert frozen.Some? && frozen.value == items;
    case JObj(entries) =>
      forall k | k in entries ensures Plain(Thaw(entries[k])) && Freeze(Thaw(entries[k])) == Some(entries[k]) {
        FreezeThaw(entries[k]);
      }
      var thawed := Thaw(j);
      var frozen := FreezeKeys(thawed, SortedKeys(thawed.entries.Keys));
      assert frozen.Some? && frozen.value == entries;
    case _ =>
  }

  /** Freezing plain JSON and thawing it gives it back. */
  lemma {:induction false} ThawFreeze(j: Json)
    requires Plain(j)
    ensures Freeze(j).Some? && Thaw(Freeze(j).value) == j
  {
    hide FreezeItems, FreezeKeys, ThawItems, ThawKeys, SortedKeys, Ascending;
    match j
    case JArr(items) =>
      forall i | 0 <= i < |items| ensures Freeze(items[i]).Some? && Thaw(Freeze(items[i]).value) == items[i] {
        assert items[i] in items;
        ThawFreeze(items[i]);
      }
      var frozen := Freeze(j).value;
      assert ThawItems(frozen, |items|) == items;
    case JObj(entries) =>
      forall k | k in entries ensures Freeze(entries[k]).Some? && Thaw(Freeze(entries[k]).value) == entries[k] {
        ThawFreeze(entries[k]);
      }
      var frozen := Freeze(j).value;
      assert ThawKeys(frozen, SortedKeys(frozen.entries.Keys)) == entries;
    case _ =>
  }

  lemma {:induction false} FreezeFixes(j: Json)
    requires Frozen(j)
    ensures Freeze(j) == Some(j)
  {
    hide FreezeItems, FreezeKeys, ThawItems, ThawKeys, SortedKeys, Ascending;
    match j
    case JTup(items) =>
      forall i | 0 <= i < |items| ensures Freeze(items[i]) == Some(items[i]) {
        assert items[i] in items;
        FreezeFixes(items[i]);
      }
      var frozen := FreezeItems(j, |items|);
      assert frozen.Some? && frozen.value == items;
    case JObj(entries) =>
      forall k | k in entries ensures Freeze(entries[k]) == Some(entries[k]) { FreezeFixes(entries[k]); }
      var frozen := FreezeKeys(j, SortedKeys(entries.Keys));
      assert frozen.Some? && frozen.value == entries;
    case _ =>
  }

  method FreezeLoop(j: Json) returns (r: Option<Json>)
    ensures r == Freeze(j)
    decreases j, 1
  {
    match j {
      case JBad => return None;
      case JArr(_) =>
        var items := FreezeItemsLoop(j);
        return if items.Some? then Some(JTup(items.value)) else None;
      case JTup(_) =>
        var items := FreezeItemsLoop(j);
        return if items.Some? then Some(JTup(items.value)) else None;
      case JObj(_) =>
        var entries := FreezeKeysLoop(j);
        return if entries.Some? then Some(JObj(entries.value)) else None;
      case _ => return Some(j);
    }
  }

  method FreezeItemsLoop(j: Json) returns (r: Option<seq<Json>>)
    requires j.JArr? || j.JTup?
    ensures r == FreezeItems(j, |j.items|)
    decreases j, 0
  {
    hide Freeze;
    var frozen: seq<Json> := [];
    for i := 0 to |j.items|
      invariant FreezeItems(j, i) == Some(frozen)
    {
      var item := FreezeLoop(j.items[i]);
      if item.None? {
        FailsLater(j, i + 1, |j.items|);
        return None;
      }
      frozen := frozen + [item.value];
    }
    return Some(frozen);
  }

  /** Keys are visited in ascending order. */
  method FreezeKeysLoop(j: Json) returns (r: Option<map<string, Json>>)
    requires j.JObj?
    ensures r == FreezeKeys(j, SortedKeys(j.entries.Keys))
    decreases j, 0
  {
    hide Freeze, FreezeKeys, SortedKeys, Ascending;
    var keys := SortedKeys(j.entries.Keys);
    var frozen: map<string, Json> := map[];
    NoKeys(j);
    for i := 0 to |keys|
      invariant FreezeKeys(j, keys[..i]) == Some(frozen)
    {
      NextKey(j, keys, i);
      var item := FreezeLoop(j.entries[keys[i]]);
      if item.None? {
        KeyFails(j, keys, i);
        return None;
      }
      frozen := frozen[keys[i] := item.value];
    }
    assert keys[..|keys|] == keys;
    return Some(frozen);
  }

  lemma NoKeys(j: Json)
    requires j.JObj?
    ensures FreezeKeys(j, []) == Some(map[])
  {
  }

  /** One more key. */
  lemma NextKey(j: Json, keys: seq<string>, i: nat)
    requires j.JObj? && i < |keys| && forall k <- keys :: k in j.entries
    ensures var front, last := FreezeKeys(j, keys[..i]), Freeze(j.entries[keys[i]]);
            front.Some? && last.Some? ==> FreezeKeys(j, keys[..i + 1]) == Some(front.value[keys[i] := last.value])
  {
    hide Freeze;
    assert keys[..i + 1][..i] == keys[..i];
  }

  lemma KeyFails(j: Json, keys: seq<string>, i: nat)
    requires j.JObj? && i < |keys| && (forall k <- keys :: k in j.entries) && Freeze(j.entries[keys[i]]).None?
    ensures FreezeKeys(j, keys).None?
  {
    assert keys[i] in keys;
  }

  lemma {:induction false} FailsLater(j: Json, i: nat, n: nat)
    requires (j.JArr? || j.JTup?) && i <= n <= |j.items| && FreezeItems(j, i).None?
    ensures FreezeItems(j, n).None?
  {
    if i < n { FailsLater(j, i, n - 1); }
  }
}
