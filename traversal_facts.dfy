/** Properties of the traversal engine that hold for every tree, table and handler set:
    dispatch replaces recursion, children are walked in key order, fields outside the
    key list are never read, type-less values behave as `Property`, and the unknown-type
    error arises exactly where the registry has no answer. */
module TraversalFacts {
  import opened Wrappers
  import opened Nodes
  import opened ChildKeys
  import opened Traversal

  /** Sequencing runs is associative. */
  lemma ThenAssoc(a: Run, b: Run, d: Run)
    ensures Then(Then(a, b), d) == Then(a, Then(b, d))
  {
    if a.Done? && b.Done? {
      assert (a.trace + b.trace) + d.trace == a.trace + (b.trace + d.trace);
    }
  }

  /** A handler for the node's type replaces default recursion: without `descend` the
      run is the handler's own effects whatever lies beneath the node, and with it the
      children come after those effects; with no handler the node's children are walked. */
  lemma HandlerReplacesRecursion(c: Config, c': Config, hs: Handlers, v: Val)
    requires !v.Null?
    ensures var t := EffectiveType(v);
      t in hs && !hs[t].descend ==> Visit(c, hs, v) == Visit(c', hs, v) == Done(Own(hs[t], v))
    ensures var t := EffectiveType(v);
      t in hs && hs[t].descend ==> Visit(c, hs, v) == Prefix(Own(hs[t], v), VisitChildren(c, hs, v))
    ensures EffectiveType(v) !in hs ==> Visit(c, hs, v) == VisitChildren(c, hs, v)
  {
  }

  /** A type in neither table, with no fallback, raises `Unknown node type <t>.` before any
      handler runs: from `visitChildren` always, and from `visit` unless a handler claims
      the type. A fallback never lets a traversal fail. */
  lemma UnknownTypeFails(c: Config, hs: Handlers, v: Val)
    requires !v.Null?
    ensures var t := EffectiveType(v);
      t !in c.table && c.fallback.None? ==>
        VisitChildren(c, hs, v) == Failed([], t) &&
        (t !in hs ==> Visit(c, hs, v) == Failed([], t))
    ensures c.fallback.Some? ==> Visit(c, hs, v).Done? && VisitChildren(c, hs, v).Done?
  {
  }

  /** A type outside the table walks exactly the fields the fallback function names. */
  lemma FallbackChoosesFields(c: Config, hs: Handlers, v: Val)
    requires !v.Null? && EffectiveType(v) !in c.table && c.fallback.Some?
    ensures VisitChildren(c, hs, v) == VisitFields(c, hs, v, EffectiveType(v), c.fallback.value(v))
  {
  }

  /** Fields are walked in key order: the walk of `a + b` is the walk of `a` followed by
      the walk of `b`. */
  lemma {:induction false} FieldsInOrder(c: Config, hs: Handlers, v: Val, t: string, a: seq<string>, b: seq<string>)
    ensures VisitFields(c, hs, v, t, a + b) == Then(VisitFields(c, hs, v, t, a), VisitFields(c, hs, v, t, b))
    decreases |b|
  {
    if b == [] {
      assert a + b == a;
    } else {
      var b' := b[..|b| - 1];
      var k := b[|b| - 1];
      assert (a + b)[..|a + b| - 1] == a + b';
      assert (a + b)[|a + b| - 1] == k;
      FieldsInOrder(c, hs, v, t, a, b');
      ThenAssoc(VisitFields(c, hs, v, t, a), VisitFields(c, hs, v, t, b'), VisitField(c, hs, v, t, k));
    }
  }

  /** One more key extends a field walk by that key's field; once the walk has raised,
      the remaining keys are not walked. */
  lemma FieldsStep(c: Config, hs: Handlers, v: Val, t: string, keys: seq<string>, i: nat)
    requires i < |keys|
    ensures VisitFields(c, hs, v, t, keys[..i + 1])
      == Then(VisitFields(c, hs, v, t, keys[..i]), VisitField(c, hs, v, t, keys[i]))
    ensures VisitFields(c, hs, v, t, keys[..i + 1]).Failed? ==>
      VisitFields(c, hs, v, t, keys) == VisitFields(c, hs, v, t, keys[..i + 1])
  {
    assert keys[..i + 1][..i] == keys[..i];
    assert keys[..i + 1] + keys[i + 1..] == keys;
    FieldsInOrder(c, hs, v, t, keys[..i + 1], keys[i + 1..]);
  }

  /** One more entry extends an array walk by that entry's visit. */
  lemma ItemsStep(c: Config, hs: Handlers, t: string, k: string, arr: Val, j: nat)
    requires arr.Arr? && j < |arr.items|
    ensures VisitItems(c, hs, t, k, arr, j + 1)
      == Then(VisitItems(c, hs, t, k, arr, j), VisitEntry(c, hs, t, k, arr.items[j]))
  {
  }

  /** Once an array walk raises, later entries are not visited. */
  lemma {:induction false} ItemsStopAtFailure(c: Config, hs: Handlers, t: string, k: string, arr: Val, m: nat, n: nat)
    requires arr.Arr? && m <= n <= |arr.items|
    requires VisitItems(c, hs, t, k, arr, m).Failed?
    ensures VisitItems(c, hs, t, k, arr, n) == VisitItems(c, hs, t, k, arr, m)
    decreases n
  {
    if m < n {
      ItemsStopAtFailure(c, hs, t, k, arr, m, n - 1);
    }
  }

  /** A listed field that the node does not have is skipped without error. */
  lemma MissingFieldSkipped(c: Config, hs: Handlers, v: Val, t: string, k: string)
    requires Get(v, k) == Null
    ensures VisitField(c, hs, v, t, k) == Done([])
  {
  }

  /** A field's walk depends on nothing but that field's value. */
  lemma FieldReadsOnlyItsValue(c: Config, hs: Handlers, v: Val, w: Val, t: string, k: string)
    requires v.Node? && w.Node?
    requires k == "type" || Get(v, k) == Get(w, k)
    ensures VisitField(c, hs, v, t, k) == VisitField(c, hs, w, t, k)
  {
    if k != "type" {
      match (FieldIndex(v.fields, k), FieldIndex(w.fields, k))
      case (Some(i), Some(j)) =>
        assert v.fields[i].1 == w.fields[j].1;
      case (None, Some(j)) =>
        assert w.fields[j].1 == Null;
      case (Some(i), None) =>
        assert v.fields[i].1 == Null;
      case (None, None) =>
    }
  }

  /** A walk over `keys` reads only the fields `keys` names. */
  lemma {:induction false} FieldsReadOnlyListed(c: Config, hs: Handlers, v: Val, w: Val, t: string, keys: seq<string>)
    requires v.Node? && w.Node?
    requires forall k :: k in keys ==> k == "type" || Get(v, k) == Get(w, k)
    ensures VisitFields(c, hs, v, t, keys) == VisitFields(c, hs, w, t, keys)
    decreases |keys|
  {
    if keys != [] {
      var k := keys[|keys| - 1];
      FieldsReadOnlyListed(c, hs, v, w, t, keys[..|keys| - 1]);
      FieldReadsOnlyItsValue(c, hs, v, w, t, k);
    }
  }

  /** No handler's effect reads property `k`. */
  predicate NoHandlerReads(hs: Handlers, k: string)
  {
    forall t :: t in hs ==> hs[t].effect != Push(k)
  }

  /** Back-references are inert: giving a node's field that its type's key list does not
      name any value at all (a `parent` reference to an enclosing node, say) changes neither
      `visit` nor `visitChildren` on it, as long as no handler logs that field. */
  lemma UnlistedFieldInert(c: Config, hs: Handlers, v: Val, k: string, x: Val)
    requires v.Node? && k != "type"
    requires EffectiveType(v) in c.table && k !in c.table[EffectiveType(v)]
    requires NoHandlerReads(hs, k)
    ensures VisitChildren(c, hs, SetField(v, k, x)) == VisitChildren(c, hs, v)
    ensures Visit(c, hs, SetField(v, k, x)) == Visit(c, hs, v)
  {
    var w := SetField(v, k, x);
    var t := EffectiveType(v);
    assert EffectiveType(w) == t;
    FieldsReadOnlyListed(c, hs, v, w, t, c.table[t]);
    if t in hs && hs[t].effect.Push? {
      assert Get(w, hs[t].effect.field) == Get(v, hs[t].effect.field);
    }
  }

  /** A node without `type` is visited exactly as the same node tagged `Property`, when
      `Property` has a key-table entry or unknown types are an error, and no handler logs
      the `type` property. */
  lemma TypelessIsProperty(c: Config, hs: Handlers, fields: seq<(string, Val)>)
    requires PropertyType in c.table || c.fallback.None?
    requires NoHandlerReads(hs, "type")
    ensures VisitChildren(c, hs, Node(None, fields)) == VisitChildren(c, hs, Node(Some(PropertyType), fields))
    ensures Visit(c, hs, Node(None, fields)) == Visit(c, hs, Node(Some(PropertyType), fields))
  {
    var v, w := Node(None, fields), Node(Some(PropertyType), fields);
    assert EffectiveType(v) == EffectiveType(w) == PropertyType;
    if PropertyType in c.table {
      FieldsReadOnlyListed(c, hs, v, w, PropertyType, c.table[PropertyType]);
    }
    if PropertyType in hs && hs[PropertyType].effect.Push? {
      assert Get(w, hs[PropertyType].effect.field) == Get(v, hs[PropertyType].effect.field);
    }
  }

  /** Outside a property list, array entries that are null, falsy or have no `type` are
      skipped: an array of only such entries contributes nothing. */
  lemma {:induction false} NonNodeEntriesSkipped(c: Config, hs: Handlers, t: string, k: string, arr: Val, n: nat)
    requires arr.Arr? && n <= |arr.items|
    requires !IsPropertyList(t, k)
    requires forall j :: 0 <= j < n ==> !IsNode(arr.items[j])
    ensures VisitItems(c, hs, t, k, arr, n) == Done([])
  {
    if n > 0 {
      NonNodeEntriesSkipped(c, hs, t, k, arr, n - 1);
    }
  }

  /** Inside `properties` of an object expression or pattern every truthy entry is
      visited, a type-less one dispatching as `Property`; elsewhere only truthy nodes are. */
  lemma PropertyEntriesVisited(c: Config, hs: Handlers, t: string, k: string, e: Val)
    ensures IsPropertyList(t, k) && Truthy(e) ==> VisitEntry(c, hs, t, k, e) == Visit(c, hs, e)
    ensures IsPropertyList(t, k) && Truthy(e) && !IsNode(e) ==> EffectiveType(e) == PropertyType
    ensures !IsPropertyList(t, k) ==>
      VisitEntry(c, hs, t, k, e) == (if IsNode(e) then Visit(c, hs, e) else Done([]))
  {
  }

  /** A node whose type has no child fields is at most one handler call and never fails. */
  lemma LeafVisitsOnce(c: Config, hs: Handlers, v: Val)
    requires !v.Null? && ResolveKeys(c, EffectiveType(v), v) == Success([])
    ensures Visit(c, hs, v).Done? && |Visit(c, hs, v).trace| <= 1
    ensures EffectiveType(v) !in hs ==> Visit(c, hs, v) == Done([])
  {
    assert VisitChildren(c, hs, v) == VisitFields(c, hs, v, EffectiveType(v), []) == Done([]);
  }
}
