/** The loosely typed values a syntax tree is built from, as the traversal reads them:
    how a field is fetched, which values count as nodes, and which type a value
    dispatches on. */
module Nodes {
  import opened Wrappers

  /** One JavaScript value reachable from a tree.
      A `Node` is a plain object: `ty` is its `type` property when that is a string, and
      `fields` lists its other own properties in insertion order. An object's names are
      distinct; the datatype does not enforce this, and every read sees the first field of
      a name, while an entry named `type` in `fields` is never read. `Null` stands for
      both `null` and `undefined`. */
  datatype Val =
    | Node(ty: Option<string>, fields: seq<(string, Val)>)
    | Arr(items: seq<Val>)
    | Str(s: string)
    | Num(n: int)
    | Bool(b: bool)
    | Null

  /** The type a node without a usable `type` dispatches and resolves its keys as. */
  const PropertyType: string := "Property"

  /** Position of the first field named `k`, if any. */
  function FieldIndex(fields: seq<(string, Val)>, k: string): (r: Option<nat>)
    ensures r.Some? ==> r.value < |fields| && fields[r.value].0 == k
    ensures r.Some? ==> forall j :: 0 <= j < r.value ==> fields[j].0 != k
    ensures r.None? ==> forall j :: 0 <= j < |fields| ==> fields[j].0 != k
  {
    if fields == [] then None
    else if fields[0].0 == k then Some(0)
    else match FieldIndex(fields[1..], k)
      case None => None
      case Some(i) => Some(i + 1)
  }

  /** `v[k]`: the property read the traversal and the handlers perform. A missing
      property, or any property of a non-object, reads as undefined. */
  function Get(v: Val, k: string): (r: Val)
    ensures k == "type" ==> r == (if v.Node? && v.ty.Some? then Str(v.ty.value) else Null)
    ensures k != "type" && r != Null ==>
      v.Node? && exists j :: 0 <= j < |v.fields| && v.fields[j] == (k, r)
    ensures k != "type" && v.Node? && FieldIndex(v.fields, k).Some? ==>
      r == v.fields[FieldIndex(v.fields, k).value].1
    ensures k != "type" && (!v.Node? || FieldIndex(v.fields, k).None?) ==> r == Null
  {
    if k == "type" then
      (if v.Node? && v.ty.Some? then Str(v.ty.value) else Null)
    else if v.Node? then
      match FieldIndex(v.fields, k)
      case None => Null
      case Some(i) => v.fields[i].1
    else Null
  }

  /** JavaScript truthiness: objects and arrays are always truthy. */
  predicate Truthy(v: Val)
  {
    match v
    case Node(_, _) => true
    case Arr(_) => true
    case Str(s) => s != ""
    case Num(n) => n != 0
    case Bool(b) => b
    case Null => false
  }

  /** A node is an object whose `type` is a string (possibly empty). */
  predicate IsNode(v: Val)
  {
    v.Node? && v.ty.Some?
  }

  /** `node.type || "Property"`: the type a value dispatches on. */
  function EffectiveType(v: Val): (t: string)
    ensures t != ""
    ensures !v.Node? || v.ty.None? || v.ty == Some("") ==> t == PropertyType
    ensures IsNode(v) && v.ty.value != "" ==> t == v.ty.value
  {
    if v.Node? && v.ty.Some? && v.ty.value != "" then v.ty.value else PropertyType
  }

  /** The names of a field list, in order. */
  function Names(fields: seq<(string, Val)>): (ks: seq<string>)
    ensures |ks| == |fields|
    ensures forall j :: 0 <= j < |fields| ==> ks[j] == fields[j].0
  {
    seq(|fields|, j requires 0 <= j < |fields| => fields[j].0)
  }

  /** `Object.keys(v)`: the own property names of an object, `type` first when present.
      Scalars and arrays are given no keys. */
  function OwnKeys(v: Val): (ks: seq<string>)
    ensures !v.Node? ==> ks == []
    ensures v.Node? ==> |ks| == |v.fields| + (if v.ty.Some? then 1 else 0)
    ensures forall k :: k in ks ==> k == "type" || (v.Node? && k in Names(v.fields))
    ensures v.Node? && v.ty.Some? ==> ks[0] == "type"
    ensures v.Node? ==> forall j :: 0 <= j < |v.fields| ==> ks[j + (if v.ty.Some? then 1 else 0)] == v.fields[j].0
  {
    if v.Node? then (if v.ty.Some? then ["type"] else []) + Names(v.fields) else []
  }

  /** The object `v` with property `k` (not `type`) set to `x`: an existing property keeps
      its place, a new one is added last. */
  function SetField(v: Val, k: string, x: Val): (w: Val)
    requires v.Node? && k != "type"
    ensures w.Node? && w.ty == v.ty
    ensures Get(w, k) == x
    ensures forall k' :: k' != k ==> Get(w, k') == Get(v, k')
  {
    match FieldIndex(v.fields, k)
    case None =>
      var w := Node(v.ty, v.fields + [(k, x)]);
      assert forall k' :: k' != "type" ==> FieldIndex(w.fields, k') == (if k' == k then Some(|v.fields|) else FieldIndex(v.fields, k')) by {
        forall k' | k' != "type" { FieldIndexAppend(v.fields, k, x, k'); }
      }
      w
    case Some(i) =>
      var w := Node(v.ty, v.fields[i := (k, x)]);
      assert forall k' :: FieldIndex(w.fields, k') == FieldIndex(v.fields, k') by {
        forall k' { FieldIndexReplace(v.fields, i, k, x, k'); }
      }
      w
  }

  /** Assigning a new property appends its name to `Object.keys`; assigning an existing
      one keeps the key order. */
  lemma OwnKeysAfterSet(v: Val, k: string, x: Val)
    requires v.Node? && k != "type"
    ensures FieldIndex(v.fields, k).None? ==> OwnKeys(SetField(v, k, x)) == OwnKeys(v) + [k]
    ensures FieldIndex(v.fields, k).Some? ==> OwnKeys(SetField(v, k, x)) == OwnKeys(v)
  {
    var w := SetField(v, k, x);
    var pre: seq<string> := if v.ty.Some? then ["type"] else [];
    match FieldIndex(v.fields, k)
    case None =>
      assert Names(w.fields) == Names(v.fields) + [k];
      assert pre + (Names(v.fields) + [k]) == pre + Names(v.fields) + [k];
    case Some(i) =>
      assert Names(w.fields) == Names(v.fields);
  }

  lemma {:induction false} FieldIndexAppend(fields: seq<(string, Val)>, k: string, x: Val, k': string)
    requires FieldIndex(fields, k).None?
    ensures FieldIndex(fields + [(k, x)], k') == (if k' == k then Some(|fields|) else FieldIndex(fields, k'))
  {
    if fields != [] {
      assert (fields + [(k, x)])[1..] == fields[1..] + [(k, x)];
      if fields[0].0 != k' {
        FieldIndexAppend(fields[1..], k, x, k');
      }
    }
  }

  lemma {:induction false} FieldIndexReplace(fields: seq<(string, Val)>, i: nat, k: string, x: Val, k': string)
    requires i < |fields| && fields[i].0 == k
    ensures FieldIndex(fields[i := (k, x)], k') == FieldIndex(fields, k')
  {
    if i > 0 {
      assert fields[i := (k, x)][1..] == fields[1..][i - 1 := (k, x)];
      if fields[0].0 != k' {
        FieldIndexReplace(fields[1..], i - 1, k, x, k');
      }
    }
  }
}
