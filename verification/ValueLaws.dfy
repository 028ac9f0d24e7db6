/** Which values can be copied, which are JSON, and what unpacking one gives. */
module ValueLaws {
  import opened Values
  import opened Ordering

  /** `x` is `v` or occurs in it, at some depth. */
  predicate Occurs(x: Value, v: Value) {
    || x == v
    || (match v
        case List(items) => exists y <- items :: Occurs(x, y)
        case Dict(entries) => exists k <- entries :: Occurs(x, entries[k])
        case _ => false)
  }

  /** A value can be copied exactly if nothing in it, at any depth, refuses to be. */
  lemma {:induction false} CopyableLaw(v: Value)
    ensures Copyable(v) <==> forall id: nat :: !Occurs(Opaque(id, false), v)
  {
    match v
    case List(items) =>
      forall y | y in items ensures Copyable(y) <==> forall id: nat :: !Occurs(Opaque(id, false), y) {
        CopyableLaw(y);
      }
    case Dict(entries) =>
      forall k | k in entries
        ensures Copyable(entries[k]) <==> forall id: nat :: !Occurs(Opaque(id, false), entries[k])
      {
        CopyableLaw(entries[k]);
      }
    case Opaque(id, c) => assert !c ==> Occurs(Opaque(id, false), v);
    case _ =>
  }

  /** A value is JSON exactly if nothing in it, at any depth, is an object that is none. */
  lemma {:induction false} JsonLaw(v: Value)
    ensures Json(v) <==> forall id: nat, c: bool :: !Occurs(Opaque(id, c), v)
  {
    match v
    case List(items) =>
      forall y | y in items ensures Json(y) <==> forall id: nat, c: bool :: !Occurs(Opaque(id, c), y) { JsonLaw(y); }
    case Dict(entries) =>
      forall k | k in entries
        ensures Json(entries[k]) <==> forall id: nat, c: bool :: !Occurs(Opaque(id, c), entries[k])
      {
        JsonLaw(entries[k]);
      }
    case Opaque(id, c) => assert Occurs(Opaque(id, c), v);
    case _ =>
  }

  /** The texts one after the other. */
  function Joined(items: seq<Value>): string {
    if items == [] || !items[0].Str? then "" else items[0].s + Joined(items[1..])
  }

  lemma {:induction false} CharactersJoin(s: string, items: seq<Value>)
    requires |items| == |s| && forall i :: 0 <= i < |s| ==> items[i] == Str([s[i]])
    ensures Joined(items) == s
  {
    if s != "" {
      CharactersJoin(s[1..], items[1..]);
      assert s == [s[0]] + s[1..];
    }
  }

  lemma StrsHold(names: seq<string>)
    ensures forall n <- names :: Str(n) in Strs(names)
    ensures forall x <- Strs(names) :: x.Str? && x.s in names
  {
    forall n | n in names ensures Str(n) in Strs(names) {
      var i :| 0 <= i < |names| && names[i] == n;
      assert Strs(names)[i] == Str(n);
    }
  }

  /** A list unpacks to its items, a text to characters that join to it again, a dict to its keys, and
      nothing else unpacks. */
  lemma UnpackLaw(v: Value)
    ensures match Unpack(v)
            case None => !v.List? && !v.Str? && !v.Dict?
            case Some(items) =>
              match v
              case List(own) => items == own
              case Str(s) => Joined(items) == s && forall x <- items :: x.Str? && |x.s| == 1
              case Dict(entries) =>
                && |items| == |entries.Keys|
                && (forall k <- entries :: Str(k) in items) && forall x <- items :: x.Str? && x.s in entries
              case _ => false
  {
    hide Strs, SortedKeys, Joined;
    match v
    case Str(s) => CharactersJoin(s, Unpack(v).value);
    case Dict(entries) =>
      SortedKeysCount(entries.Keys);
      StrsHold(SortedKeys(entries.Keys));
    case _ =>
  }
}
