/** The cases of test/traverse.js, stated on the model: each tree, handler set and option
    set is written out, and the log, counter or error the case expects is proved. The
    first lemmas are evaluation steps shared by the cases; each case is then assembled
    from the runs of its subtrees. */
module Scenarios {
  import opened Wrappers
  import opened Nodes
  import opened ChildKeys
  import opened Traversal
  import opened TraversalFacts

  function Ident(name: string): Val
  {
    Node(Some("Identifier"), [("name", Str(name))])
  }

  function Literal(n: int): Val
  {
    Node(Some("Literal"), [("value", Num(n))])
  }

  function Block(body: seq<Val>): Val
  {
    Node(Some("BlockStatement"), [("body", Arr(body))])
  }

  /** A handler `T(node) { return log.push(node.name); }`. */
  function LogName(): Handler
  {
    Handler(Push("name"), false)
  }

  /** A `TestStatement` node with the given `id`, one-entry `params` and `defaults`,
      `rest` and `body`. */
  function TestStatementOf(id: Val, param: Val, default: Val, rest: Val, body: Val): Val
  {
    Node(Some("TestStatement"), [
      ("id", id), ("params", Arr([param])), ("defaults", Arr([default])), ("rest", rest), ("body", body)])
  }

  /** The `TestStatement` tree shared by several cases; `blockBody` is the block's body. */
  function TestStatement(blockBody: seq<Val>): Val
  {
    TestStatementOf(Ident("decl"), Ident("a"), Literal(20), Ident("rest"), Block(blockBody))
  }

  /** The fields of a `TestStatement` after `id`. */
  function TailKeys(): seq<string>
  {
    ["params", "defaults", "rest", "body"]
  }

  /** `keys.filter(key => key !== x)`. */
  function Except(keys: seq<string>, x: string): (r: seq<string>)
    ensures x !in r
    ensures forall k :: k in r <==> k in keys && k != x
    ensures |r| <= |keys|
  {
    if keys == [] then []
    else (if keys[0] == x then [] else [keys[0]]) + Except(keys[1..], x)
  }

  /** The filter keeps every other key where it was, repeats included: filtering
      `a + b` filters `a`, then `b`, and a single key is dropped exactly when it is `x`. */
  lemma {:induction false} ExceptKeepsOrder(a: seq<string>, b: seq<string>, x: string)
    ensures Except(a + b, x) == Except(a, x) + Except(b, x)
    ensures forall k :: Except([k], x) == (if k == x then [] else [k])
    decreases |a|
  {
    forall k
      ensures Except([k], x) == (if k == x then [] else [k])
    {
      assert [k][1..] == [];
    }
    if a == [] {
      assert a + b == b;
    } else {
      assert (a + b)[0] == a[0];
      assert (a + b)[1..] == a[1..] + b;
      ExceptKeepsOrder(a[1..], b, x);
    }
  }

  /** The fallback function of test/traverse.js:228-230: every own key except `id`. */
  function DropId(): Val -> seq<string>
  {
    (n: Val) => Except(OwnKeys(n), "id")
  }

  function Defaults(): Config
  {
    Configure(DefaultKeys(), NoOptions())
  }

  function WithIteration(): Config
  {
    Configure(DefaultKeys(), Options(map[], Iteration))
  }

  function WithDropId(): Config
  {
    Configure(DefaultKeys(), Options(map[], FallbackFunction(DropId())))
  }

  /** The configurations of the cases keep the default table as it is. */
  lemma ConfiguredTables()
    ensures Defaults().table == DefaultKeys() && WithIteration().table == DefaultKeys()
    ensures WithDropId().table == DefaultKeys()
  {
  }

  /** The table entries the cases rely on. */
  lemma DefaultEntries(c: Config)
    requires c.table == DefaultKeys()
    ensures c.table["Identifier"] == [] && c.table["Literal"] == []
    ensures c.table["Property"] == ["key", "value"]
    ensures c.table["ObjectExpression"] == ["properties"] && c.table["ObjectPattern"] == ["properties"]
    ensures c.table["MemberExpression"] == ["object", "property"]
    ensures c.table["ChainExpression"] == ["expression"] && c.table["ExpressionStatement"] == ["expression"]
    ensures c.table["BlockStatement"] == ["body"]
    ensures c.table["FunctionDeclaration"] == ["id", "params", "body"]
    ensures "TestStatement" !in c.table && "UnknownNode" !in c.table
  {
  }

  /** A handled node without `descend` is its handler's effect. */
  lemma HandledRun(c: Config, hs: Handlers, v: Val)
    requires !v.Null? && EffectiveType(v) in hs && !hs[EffectiveType(v)].descend
    ensures Visit(c, hs, v) == Done(Own(hs[EffectiveType(v)], v))
  {
  }

  /** A node with a table entry walks the entry's keys, and so does `visit` on it when no
      handler claims its type. */
  lemma TableRun(c: Config, hs: Handlers, v: Val, keys: seq<string>)
    requires !v.Null? && EffectiveType(v) in c.table && c.table[EffectiveType(v)] == keys
    ensures VisitChildren(c, hs, v) == VisitFields(c, hs, v, EffectiveType(v), keys)
    ensures EffectiveType(v) !in hs ==> Visit(c, hs, v) == VisitFields(c, hs, v, EffectiveType(v), keys)
  {
  }

  /** An unhandled node whose type is in no table walks the fields the fallback names. */
  lemma FallbackRun(c: Config, hs: Handlers, v: Val)
    requires !v.Null? && EffectiveType(v) !in hs && EffectiveType(v) !in c.table && c.fallback.Some?
    ensures Visit(c, hs, v) == VisitFields(c, hs, v, EffectiveType(v), c.fallback.value(v))
  {
  }

  /** A field holding a node visits that node; one holding an array walks its entries. */
  lemma FieldRun(c: Config, hs: Handlers, v: Val, t: string, i: nat)
    requires v.Node? && i < |v.fields| && v.fields[i].0 != "type"
    requires FieldIndex(v.fields, v.fields[i].0) == Some(i)
    ensures IsNode(v.fields[i].1) ==> VisitField(c, hs, v, t, v.fields[i].0) == Visit(c, hs, v.fields[i].1)
    ensures v.fields[i].1.Arr? ==>
      VisitField(c, hs, v, t, v.fields[i].0) == VisitItems(c, hs, t, v.fields[i].0, v.fields[i].1, |v.fields[i].1.items|)
  {
  }

  /** Walking one more key appends that key's field walk. */
  lemma FieldsSnoc(c: Config, hs: Handlers, v: Val, t: string, a: seq<string>, k: string)
    ensures VisitFields(c, hs, v, t, a + [k]) == Then(VisitFields(c, hs, v, t, a), VisitField(c, hs, v, t, k))
  {
    assert (a + [k])[..|a|] == a;
  }

  /** Walking a single key. */
  lemma OneField(c: Config, hs: Handlers, v: Val, t: string, k: string)
    ensures VisitFields(c, hs, v, t, [k]) == VisitField(c, hs, v, t, k)
  {
    FieldsSnoc(c, hs, v, t, [], k);
    assert Then(Done([]), VisitField(c, hs, v, t, k)).trace == [] + VisitField(c, hs, v, t, k).trace;
  }

  /** Walking two keys. */
  lemma TwoFields(c: Config, hs: Handlers, v: Val, t: string, k1: string, k2: string)
    requires VisitField(c, hs, v, t, k1).Done?
    ensures VisitFields(c, hs, v, t, [k1, k2])
      == Prefix(VisitField(c, hs, v, t, k1).trace, VisitField(c, hs, v, t, k2))
  {
    OneField(c, hs, v, t, k1);
    FieldsSnoc(c, hs, v, t, [k1], k2);
  }

  /** Walking four keys, the first three without error. */
  lemma FourFields(c: Config, hs: Handlers, v: Val, t: string, keys: seq<string>)
    requires |keys| == 4
    requires VisitField(c, hs, v, t, keys[0]).Done? && VisitField(c, hs, v, t, keys[1]).Done?
    requires VisitField(c, hs, v, t, keys[2]).Done?
    ensures VisitFields(c, hs, v, t, keys) == Prefix(
      VisitField(c, hs, v, t, keys[0]).trace + VisitField(c, hs, v, t, keys[1]).trace +
      VisitField(c, hs, v, t, keys[2]).trace, VisitField(c, hs, v, t, keys[3]))
  {
    TwoFields(c, hs, v, t, keys[0], keys[1]);
    assert keys[..2] == [keys[0], keys[1]] && keys[..2] + [keys[2]] == keys[..3];
    FieldsSnoc(c, hs, v, t, keys[..2], keys[2]);
    assert keys[..3] + [keys[3]] == keys;
    FieldsSnoc(c, hs, v, t, keys[..3], keys[3]);
  }

  /** A leading `type` key walks nothing. */
  lemma TypeKeyInert(c: Config, hs: Handlers, v: Val, t: string, keys: seq<string>)
    ensures VisitFields(c, hs, v, t, ["type"] + keys) == VisitFields(c, hs, v, t, keys)
  {
    FieldsInOrder(c, hs, v, t, ["type"], keys);
    OneField(c, hs, v, t, "type");
  }

  /** A one-entry array is that entry's walk. */
  lemma OneItem(c: Config, hs: Handlers, t: string, k: string, e: Val)
    ensures VisitItems(c, hs, t, k, Arr([e]), 1) == VisitEntry(c, hs, t, k, e)
  {
    assert Then(Done([]), VisitEntry(c, hs, t, k, e)).trace == [] + VisitEntry(c, hs, t, k, e).trace;
  }

  /** An unhandled node whose only key holds a one-entry array is that entry's walk. */
  lemma SingleEntryParent(c: Config, hs: Handlers, t: string, k: string, e: Val)
    requires t != "" && t in c.table && c.table[t] == [k] && k != "type"
    ensures VisitChildren(c, hs, Node(Some(t), [(k, Arr([e]))])) == VisitEntry(c, hs, t, k, e)
    ensures t !in hs ==> Visit(c, hs, Node(Some(t), [(k, Arr([e]))])) == VisitEntry(c, hs, t, k, e)
  {
    var v := Node(Some(t), [(k, Arr([e]))]);
    TableRun(c, hs, v, [k]);
    OneField(c, hs, v, t, k);
    FieldRun(c, hs, v, t, 0);
    OneItem(c, hs, t, k, e);
  }

  /** An unhandled node whose table entry is its first field, a node, is that node's visit. */
  lemma SingleChildParent(c: Config, hs: Handlers, v: Val)
    requires v.Node? && |v.fields| >= 1 && v.fields[0].0 != "type" && IsNode(v.fields[0].1)
    requires EffectiveType(v) in c.table && c.table[EffectiveType(v)] == [v.fields[0].0] && EffectiveType(v) !in hs
    ensures Visit(c, hs, v) == Visit(c, hs, v.fields[0].1)
  {
    TableRun(c, hs, v, [v.fields[0].0]);
    OneField(c, hs, v, EffectiveType(v), v.fields[0].0);
    FieldRun(c, hs, v, EffectiveType(v), 0);
  }

  /** A node whose table entry is its first two fields, both nodes, walks them in order. */
  lemma PairRun(c: Config, hs: Handlers, v: Val, a: seq<Out>, b: seq<Out>)
    requires v.Node? && |v.fields| >= 2
    requires EffectiveType(v) in c.table && c.table[EffectiveType(v)] == [v.fields[0].0, v.fields[1].0]
    requires v.fields[0].0 != v.fields[1].0 && v.fields[0].0 != "type" && v.fields[1].0 != "type"
    requires IsNode(v.fields[0].1) && Visit(c, hs, v.fields[0].1) == Done(a)
    requires IsNode(v.fields[1].1) && Visit(c, hs, v.fields[1].1) == Done(b)
    ensures VisitChildren(c, hs, v) == Done(a + b)
    ensures EffectiveType(v) !in hs ==> Visit(c, hs, v) == Done(a + b)
  {
    var t := EffectiveType(v);
    TableRun(c, hs, v, [v.fields[0].0, v.fields[1].0]);
    FieldRun(c, hs, v, t, 0);
    FieldRun(c, hs, v, t, 1);
    TwoFields(c, hs, v, t, v.fields[0].0, v.fields[1].0);
  }

  /** An identifier is logged by a `LogName` handler, and is silent without one. */
  lemma IdentRun(c: Config, hs: Handlers, name: string)
    requires c.table == DefaultKeys()
    ensures "Identifier" in hs && hs["Identifier"] == LogName() ==> Visit(c, hs, Ident(name)) == Done([Pushed(Str(name))])
    ensures "Identifier" !in hs ==> Visit(c, hs, Ident(name)) == Done([])
  {
    DefaultEntries(c);
    if "Identifier" !in hs {
      TableRun(c, hs, Ident(name), []);
    }
  }

  /** An unhandled empty block walks nothing. */
  lemma EmptyBlockRun(c: Config, hs: Handlers)
    requires "BlockStatement" in c.table && c.table["BlockStatement"] == ["body"] && "BlockStatement" !in hs
    ensures Visit(c, hs, Block([])) == Done([])
  {
    TableRun(c, hs, Block([]), ["body"]);
    OneField(c, hs, Block([]), "BlockStatement", "body");
    FieldRun(c, hs, Block([]), "BlockStatement", 0);
  }

  /** A literal is silent without a handler; an empty block is silent. */
  lemma SilentLeaves(c: Config, hs: Handlers, n: int)
    requires c.table == DefaultKeys()
    ensures "Literal" !in hs ==> Visit(c, hs, Literal(n)) == Done([])
    ensures "BlockStatement" !in hs ==> Visit(c, hs, Block([])) == Done([])
  {
    DefaultEntries(c);
    if "Literal" !in hs {
      TableRun(c, hs, Literal(n), []);
    }
    if "BlockStatement" !in hs {
      EmptyBlockRun(c, hs);
    }
  }

  /** `id` of a `TestStatement` is the visit of its node. */
  lemma IdField(c: Config, hs: Handlers, x1: Val, x2: Val, x3: Val, x4: Val, x5: Val)
    requires IsNode(x1)
    ensures VisitField(c, hs, TestStatementOf(x1, x2, x3, x4, x5), "TestStatement", "id") == Visit(c, hs, x1)
  {
    FieldRun(c, hs, TestStatementOf(x1, x2, x3, x4, x5), "TestStatement", 0);
  }

  /** `params` and `defaults` of a `TestStatement` are the visits of their one entry. */
  lemma ArrayFields(c: Config, hs: Handlers, x1: Val, x2: Val, x3: Val, x4: Val, x5: Val)
    requires IsNode(x2) && IsNode(x3)
    ensures VisitField(c, hs, TestStatementOf(x1, x2, x3, x4, x5), "TestStatement", "params") == Visit(c, hs, x2)
    ensures VisitField(c, hs, TestStatementOf(x1, x2, x3, x4, x5), "TestStatement", "defaults") == Visit(c, hs, x3)
  {
    var v, t := TestStatementOf(x1, x2, x3, x4, x5), "TestStatement";
    FieldRun(c, hs, v, t, 1);
    OneItem(c, hs, t, "params", x2);
    FieldRun(c, hs, v, t, 2);
    OneItem(c, hs, t, "defaults", x3);
  }

  /** `rest` and `body` of a `TestStatement` are the visits of their nodes. */
  lemma LastFields(c: Config, hs: Handlers, x1: Val, x2: Val, x3: Val, x4: Val, x5: Val)
    requires IsNode(x4) && IsNode(x5)
    ensures VisitField(c, hs, TestStatementOf(x1, x2, x3, x4, x5), "TestStatement", "rest") == Visit(c, hs, x4)
    ensures VisitField(c, hs, TestStatementOf(x1, x2, x3, x4, x5), "TestStatement", "body") == Visit(c, hs, x5)
  {
    var v, t := TestStatementOf(x1, x2, x3, x4, x5), "TestStatement";
    FieldRun(c, hs, v, t, 3);
    FieldRun(c, hs, v, t, 4);
  }

  /** `type` and `id` of a `TestStatement`, in order. */
  lemma HeadRun(c: Config, hs: Handlers, x1: Val, x2: Val, x3: Val, x4: Val, x5: Val, a: seq<Out>)
    requires IsNode(x1) && Visit(c, hs, x1) == Done(a)
    ensures VisitFields(c, hs, TestStatementOf(x1, x2, x3, x4, x5), "TestStatement", ["type", "id"]) == Done(a)
  {
    IdField(c, hs, x1, x2, x3, x4, x5);
    TwoFields(c, hs, TestStatementOf(x1, x2, x3, x4, x5), "TestStatement", "type", "id");
  }

  /** The fields of a `TestStatement` after `id`, in order. */
  lemma TailRun(c: Config, hs: Handlers, x1: Val, x2: Val, x3: Val, x4: Val, x5: Val, b: seq<Out>, d: seq<Out>, e: seq<Out>, f: seq<Out>)
    requires IsNode(x2) && IsNode(x3) && IsNode(x4) && IsNode(x5)
    requires Visit(c, hs, x2) == Done(b) && Visit(c, hs, x3) == Done(d)
    requires Visit(c, hs, x4) == Done(e) && Visit(c, hs, x5) == Done(f)
    ensures VisitFields(c, hs, TestStatementOf(x1, x2, x3, x4, x5), "TestStatement", TailKeys()) == Done(b + d + e + f)
  {
    ArrayFields(c, hs, x1, x2, x3, x4, x5);
    LastFields(c, hs, x1, x2, x3, x4, x5);
    FourFields(c, hs, TestStatementOf(x1, x2, x3, x4, x5), "TestStatement", TailKeys());
  }

  /** The iteration fallback walks a `TestStatement`'s own keys, `type` first. */
  lemma IterationKeys(c: Config, hs: Handlers, x1: Val, x2: Val, x3: Val, x4: Val, x5: Val)
    requires "TestStatement" !in c.table && c.fallback == Some(OwnKeys) && "TestStatement" !in hs
    ensures Visit(c, hs, TestStatementOf(x1, x2, x3, x4, x5))
      == VisitFields(c, hs, TestStatementOf(x1, x2, x3, x4, x5), "TestStatement", ["type", "id"] + TailKeys())
  {
    assert OwnKeys(TestStatementOf(x1, x2, x3, x4, x5)) == ["type", "id"] + TailKeys();
    FallbackRun(c, hs, TestStatementOf(x1, x2, x3, x4, x5));
  }

  /** A `TestStatement`'s own keys, `type` first, walk its five fields in order. */
  lemma OwnFieldsRun(c: Config, hs: Handlers, x1: Val, x2: Val, x3: Val, x4: Val, x5: Val, a: seq<Out>, b: seq<Out>, d: seq<Out>, e: seq<Out>, f: seq<Out>)
    requires IsNode(x1) && IsNode(x2) && IsNode(x3) && IsNode(x4) && IsNode(x5)
    requires Visit(c, hs, x1) == Done(a) && Visit(c, hs, x2) == Done(b)
    requires Visit(c, hs, x3) == Done(d) && Visit(c, hs, x4) == Done(e)
    requires Visit(c, hs, x5) == Done(f)
    ensures VisitFields(c, hs, TestStatementOf(x1, x2, x3, x4, x5), "TestStatement", ["type", "id"] + TailKeys())
      == Done(a + b + d + e + f)
  {
    var v, t := TestStatementOf(x1, x2, x3, x4, x5), "TestStatement";
    FieldsInOrder(c, hs, v, t, ["type", "id"], TailKeys());
    HeadRun(c, hs, x1, x2, x3, x4, x5, a);
    TailRun(c, hs, x1, x2, x3, x4, x5, b, d, e, f);
    assert a + (b + d + e + f) == a + b + d + e + f;
  }

  /** Under the iteration fallback an unhandled `TestStatement` walks its five fields in
      order. */
  lemma IteratedRun(c: Config, hs: Handlers, x1: Val, x2: Val, x3: Val, x4: Val, x5: Val, a: seq<Out>, b: seq<Out>, d: seq<Out>, e: seq<Out>, f: seq<Out>)
    requires "TestStatement" !in c.table && c.fallback == Some(OwnKeys) && "TestStatement" !in hs
    requires IsNode(x1) && IsNode(x2) && IsNode(x3) && IsNode(x4) && IsNode(x5)
    requires Visit(c, hs, x1) == Done(a) && Visit(c, hs, x2) == Done(b)
    requires Visit(c, hs, x3) == Done(d) && Visit(c, hs, x4) == Done(e)
    requires Visit(c, hs, x5) == Done(f)
    ensures Visit(c, hs, TestStatementOf(x1, x2, x3, x4, x5)) == Done(a + b + d + e + f)
  {
    IterationKeys(c, hs, x1, x2, x3, x4, x5);
    OwnFieldsRun(c, hs, x1, x2, x3, x4, x5, a, b, d, e, f);
  }

  /** The `TestStatement` tree under the iteration fallback, from the visits of its leaves. */
  lemma IteratedTestStatement(c: Config, hs: Handlers, body: seq<Val>, a: seq<Out>, b: seq<Out>, d: seq<Out>, e: seq<Out>, f: seq<Out>)
    requires "TestStatement" !in c.table && c.fallback == Some(OwnKeys) && "TestStatement" !in hs
    requires Visit(c, hs, Ident("decl")) == Done(a) && Visit(c, hs, Ident("a")) == Done(b)
    requires Visit(c, hs, Literal(20)) == Done(d) && Visit(c, hs, Ident("rest")) == Done(e)
    requires Visit(c, hs, Block(body)) == Done(f)
    ensures Visit(c, hs, TestStatement(body)) == Done(a + b + d + e + f)
  {
    IteratedRun(c, hs, Ident("decl"), Ident("a"), Literal(20), Ident("rest"), Block(body), a, b, d, e, f);
  }

  /** The traces the cases assemble. */
  lemma Traces(x: Out, y: Out, z: Out)
    ensures [] + [] + [x] + [] + [] == [x]
    ensures [x] + [] + [y] + [] == [x, y]
    ensures [x] + [y] == [x, y]
    ensures [x] + [y] + [] + [z] + [] == [x, y, z]
  {
  }

  /** `PropertyNode(true)` has `key` and `value`; `PropertyNode(false)` has only `key`. */
  function PropertyNode(withValue: bool): Val
  {
    Node(Some("Property"), if withValue then [("key", Ident("a")), ("value", Ident("b"))] else [("key", Ident("a"))])
  }

  lemma PropertyRun()
    ensures Visit(Defaults(), map["Identifier" := LogName()], PropertyNode(true))
      == Done([Pushed(Str("a")), Pushed(Str("b"))])
  {
    var c, hs := Defaults(), map["Identifier" := LogName()];
    ConfiguredTables();
    DefaultEntries(c);
    IdentRun(c, hs, "a");
    IdentRun(c, hs, "b");
    PairRun(c, hs, PropertyNode(true), [Pushed(Str("a"))], [Pushed(Str("b"))]);
    Traces(Pushed(Str("a")), Pushed(Str("b")), Pushed(Str("b")));
  }

  lemma KeyOnlyRun()
    ensures Visit(Defaults(), map["Identifier" := LogName()], PropertyNode(false))
      == Done([Pushed(Str("a"))])
  {
    var c, hs, v := Defaults(), map["Identifier" := LogName()], PropertyNode(false);
    ConfiguredTables();
    DefaultEntries(c);
    IdentRun(c, hs, "a");
    TableRun(c, hs, v, ["key", "value"]);
    FieldRun(c, hs, v, "Property", 0);
    MissingFieldSkipped(c, hs, v, "Property", "value");
    TwoFields(c, hs, v, "Property", "key", "value");
  }

  /** test/traverse.js:27-53: an object expression's property key and value are logged in order. */
  lemma ObjectExpressionProperties()
    ensures Visit(Defaults(), map["Identifier" := LogName()],
      Node(Some("ObjectExpression"), [("properties", Arr([PropertyNode(true)]))]))
      == Done([Pushed(Str("a")), Pushed(Str("b"))])
  {
    ConfiguredTables();
    DefaultEntries(Defaults());
    PropertyRun();
    SingleEntryParent(Defaults(), map["Identifier" := LogName()], "ObjectExpression", "properties", PropertyNode(true));
  }

  /** test/traverse.js:55-76: a property without `value` logs only its key, without error. */
  lemma MissingValueRecovered()
    ensures Visit(Defaults(), map["Identifier" := LogName()],
      Node(Some("ObjectExpression"), [("properties", Arr([PropertyNode(false)]))]))
      == Done([Pushed(Str("a"))])
  {
    ConfiguredTables();
    DefaultEntries(Defaults());
    KeyOnlyRun();
    SingleEntryParent(Defaults(), map["Identifier" := LogName()], "ObjectExpression", "properties", PropertyNode(false));
  }

  function Member(): Val
  {
    Node(Some("MemberExpression"), [
      ("object", Ident("a")), ("property", Ident("b")),
      ("computed", Bool(false)), ("optional", Bool(true))])
  }

  lemma MemberRun()
    ensures Visit(Defaults(), map["Identifier" := LogName()], Member())
      == Done([Pushed(Str("a")), Pushed(Str("b"))])
  {
    var c, hs := Defaults(), map["Identifier" := LogName()];
    ConfiguredTables();
    DefaultEntries(c);
    IdentRun(c, hs, "a");
    IdentRun(c, hs, "b");
    PairRun(c, hs, Member(), [Pushed(Str("a"))], [Pushed(Str("b"))]);
    Traces(Pushed(Str("a")), Pushed(Str("b")), Pushed(Str("b")));
  }

  /** test/traverse.js:79-106: an array under `expression` is walked; the boolean fields
      `computed` and `optional` are not listed and stay inert. */
  lemma ChainExpressionArray()
    ensures Visit(Defaults(), map["Identifier" := LogName()],
      Node(Some("ChainExpression"), [("expression", Arr([Member()]))]))
      == Done([Pushed(Str("a")), Pushed(Str("b"))])
  {
    ConfiguredTables();
    DefaultEntries(Defaults());
    MemberRun();
    SingleEntryParent(Defaults(), map["Identifier" := LogName()], "ChainExpression", "expression", Member());
  }

  /** test/traverse.js:109-146: an unlisted type without fallback raises
      `Unknown node type TestStatement.` and nothing is logged. */
  lemma UnknownTestStatement()
    ensures Visit(Defaults(), map["Literal" := Handler(Push("value"), false)], TestStatement([]))
      == Failed([], "TestStatement")
  {
    ConfiguredTables();
    DefaultEntries(Defaults());
    UnknownTypeFails(Defaults(), map["Literal" := Handler(Push("value"), false)], TestStatement([]));
  }

  /** test/traverse.js:134-138: the message of that error. */
  lemma UnknownTestStatementMessage()
    ensures UnknownNodeTypeMessage("TestStatement") == "Unknown node type TestStatement."
  {
  }

  /** test/traverse.js:150-191: the iteration fallback reaches the one literal. */
  lemma IterationFindsLiteral()
    ensures Visit(WithIteration(), map["Literal" := Handler(Push("value"), false)], TestStatement([]))
      == Done([Pushed(Num(20))])
  {
    var c, hs := WithIteration(), map["Literal" := Handler(Push("value"), false)];
    var x := Pushed(Num(20));
    ConfiguredTables();
    DefaultEntries(c);
    LiteralLeaves(c, hs);
    IteratedTestStatement(c, hs, [], [], [], [x], [], []);
    Traces(x, x, x);
  }

  /** The leaves of the `TestStatement` tree when only literals are handled. */
  lemma LiteralLeaves(c: Config, hs: Handlers)
    requires c.table == DefaultKeys() && hs == map["Literal" := Handler(Push("value"), false)]
    ensures Visit(c, hs, Ident("decl")) == Visit(c, hs, Ident("a")) == Visit(c, hs, Ident("rest")) == Done([])
    ensures Visit(c, hs, Literal(20)) == Done([Pushed(Num(20))]) && Visit(c, hs, Block([])) == Done([])
  {
    IdentRun(c, hs, "decl");
    IdentRun(c, hs, "a");
    IdentRun(c, hs, "rest");
    SilentLeaves(c, hs, 20);
    HandledRun(c, hs, Literal(20));
  }

  /** The leaves of the `TestStatement` tree when identifiers log their names. */
  lemma NameLeaves(c: Config, hs: Handlers)
    requires c.table == DefaultKeys() && "Identifier" in hs && hs["Identifier"] == LogName() && "Literal" !in hs
    ensures Visit(c, hs, Ident("decl")) == Done([Pushed(Str("decl"))])
    ensures Visit(c, hs, Ident("a")) == Done([Pushed(Str("a"))])
    ensures Visit(c, hs, Ident("rest")) == Done([Pushed(Str("rest"))])
    ensures Visit(c, hs, Literal(20)) == Done([])
  {
    IdentRun(c, hs, "decl");
    IdentRun(c, hs, "a");
    IdentRun(c, hs, "rest");
    SilentLeaves(c, hs, 20);
  }

  /** test/traverse.js:239-280: a visitor with the iteration fallback logs the three identifiers. */
  lemma VisitorLogsNames()
    ensures Visit(WithIteration(), map["Identifier" := LogName()], TestStatement([]))
      == Done([Pushed(Str("decl")), Pushed(Str("a")), Pushed(Str("rest"))])
  {
    var c, hs := WithIteration(), map["Identifier" := LogName()];
    var x, y, z := Pushed(Str("decl")), Pushed(Str("a")), Pushed(Str("rest"));
    ConfiguredTables();
    DefaultEntries(c);
    NameLeaves(c, hs);
    SilentLeaves(c, hs, 20);
    IteratedTestStatement(c, hs, [], [x], [y], [], [z], []);
    Traces(x, y, z);
  }

  /** test/traverse.js:433-478: an empty `BlockStatement` handler keeps the identifier inside
      the block from being visited. */
  lemma BlockHandlerStopsDescent()
    ensures Visit(WithIteration(), map["BlockStatement" := Handler(Quiet, false), "Identifier" := LogName()],
      TestStatement([Node(Some("Identifier"), [("value", Str("XXX"))])]))
      == Done([Pushed(Str("decl")), Pushed(Str("a")), Pushed(Str("rest"))])
  {
    var c, hs := WithIteration(), map["BlockStatement" := Handler(Quiet, false), "Identifier" := LogName()];
    var body := [Node(Some("Identifier"), [("value", Str("XXX"))])];
    var x, y, z := Pushed(Str("decl")), Pushed(Str("a")), Pushed(Str("rest"));
    ConfiguredTables();
    DefaultEntries(c);
    NameLeaves(c, hs);
    HandledRun(c, hs, Block(body));
    IteratedTestStatement(c, hs, body, [x], [y], [], [z], []);
    Traces(x, y, z);
  }

  /** On a `TestStatement` the fallback function keeps `type` and the fields after `id`. */
  lemma DropIdKeys(x1: Val, x2: Val, x3: Val, x4: Val, x5: Val)
    ensures DropId()(TestStatementOf(x1, x2, x3, x4, x5)) == ["type"] + TailKeys()
  {
    var ks := OwnKeys(TestStatementOf(x1, x2, x3, x4, x5));
    assert ks == ["type", "id"] + TailKeys();
    assert Except(ks[5..], "id") == ["body"];
    assert Except(ks[4..], "id") == ["rest", "body"];
    assert Except(ks[3..], "id") == ["defaults", "rest", "body"];
    assert Except(ks[2..], "id") == TailKeys();
    assert Except(ks[1..], "id") == TailKeys();
  }

  /** Under the fallback dropping `id`, an unhandled `TestStatement` walks the fields after
      `id` only. */
  lemma DropIdRun(c: Config, hs: Handlers, x1: Val, x2: Val, x3: Val, x4: Val, x5: Val, b: seq<Out>, d: seq<Out>, e: seq<Out>, f: seq<Out>)
    requires "TestStatement" !in c.table && c.fallback == Some(DropId()) && "TestStatement" !in hs
    requires IsNode(x2) && IsNode(x3) && IsNode(x4) && IsNode(x5)
    requires Visit(c, hs, x2) == Done(b) && Visit(c, hs, x3) == Done(d)
    requires Visit(c, hs, x4) == Done(e) && Visit(c, hs, x5) == Done(f)
    ensures Visit(c, hs, TestStatementOf(x1, x2, x3, x4, x5)) == Done(b + d + e + f)
  {
    var v := TestStatementOf(x1, x2, x3, x4, x5);
    DropIdKeys(x1, x2, x3, x4, x5);
    FallbackRun(c, hs, v);
    TypeKeyInert(c, hs, v, "TestStatement", TailKeys());
    TailRun(c, hs, x1, x2, x3, x4, x5, b, d, e, f);
  }

  /** The `TestStatement` tree under the fallback dropping `id`, from the visits of its leaves. */
  lemma DropIdTestStatement(c: Config, hs: Handlers, b: seq<Out>, d: seq<Out>, e: seq<Out>, f: seq<Out>)
    requires "TestStatement" !in c.table && c.fallback == Some(DropId()) && "TestStatement" !in hs
    requires Visit(c, hs, Ident("a")) == Done(b) && Visit(c, hs, Literal(20)) == Done(d)
    requires Visit(c, hs, Ident("rest")) == Done(e) && Visit(c, hs, Block([])) == Done(f)
    ensures Visit(c, hs, TestStatement([])) == Done(b + d + e + f)
  {
    DropIdRun(c, hs, Ident("decl"), Ident("a"), Literal(20), Ident("rest"), Block([]), b, d, e, f);
  }

  /** test/traverse.js:193-236: a fallback function dropping `id` leaves two identifiers. */
  lemma FallbackFunctionDropsId()
    ensures Visit(WithDropId(), map["Identifier" := Handler(Tick, false)], TestStatement([]))
      == Done([Ticked, Ticked])
    ensures Ticks(Visit(WithDropId(), map["Identifier" := Handler(Tick, false)], TestStatement([])).trace) == 2
  {
    var c, hs := WithDropId(), map["Identifier" := Handler(Tick, false)];
    ConfiguredTables();
    DefaultEntries(c);
    HandledRun(c, hs, Ident("a"));
    HandledRun(c, hs, Ident("rest"));
    SilentLeaves(c, hs, 20);
    DropIdTestStatement(c, hs, [Ticked], [], [Ticked], []);
    Traces(Ticked, Ticked, Ticked);
  }

  /** test/traverse.js:282-298 and 330-347: `visit(null)` and `visitChildren(null)` log nothing. */
  lemma NullVisitsNothing(hs: Handlers)
    ensures Visit(WithIteration(), hs, Null) == Done([])
    ensures VisitChildren(WithIteration(), hs, Null) == Done([])
  {
  }

  function KeyValue(): Val
  {
    Node(None, [
      ("key", Node(Some("key"), [("name", Str("myKey"))])),
      ("value", Node(Some("value"), [("name", Str("myValue"))]))
    ])
  }

  /** test/traverse.js:300-328 and 374-402: a node without `type` is walked with
      `Property`'s keys, `key` before `value`, by `visit` and by `visitChildren`. */
  lemma TypelessDefaultsToProperty()
    ensures Visit(WithIteration(), map["key" := LogName(), "value" := LogName()], KeyValue())
      == Done([Pushed(Str("myKey")), Pushed(Str("myValue"))])
    ensures VisitChildren(WithIteration(), map["key" := LogName(), "value" := LogName()], KeyValue())
      == Done([Pushed(Str("myKey")), Pushed(Str("myValue"))])
  {
    var c, hs, v := WithIteration(), map["key" := LogName(), "value" := LogName()], KeyValue();
    ConfiguredTables();
    DefaultEntries(c);
    var x, y := Pushed(Str("myKey")), Pushed(Str("myValue"));
    HandledRun(c, hs, v.fields[0].1);
    HandledRun(c, hs, v.fields[1].1);
    PairRun(c, hs, v, [x], [y]);
    Traces(x, y, y);
  }

  /** test/traverse.js:349-372: `visitChildren` skips null and type-less entries and does not
      call the root's own handler. */
  lemma NonNodeChildrenIgnored()
    ensures VisitChildren(WithIteration(), map["FunctionDeclaration" := LogName(), "Identifier" := LogName()],
      Node(Some("FunctionDeclaration"), [("params", Arr([Null, Node(None, [])]))]))
      == Done([])
  {
    var c, hs := WithIteration(), map["FunctionDeclaration" := LogName(), "Identifier" := LogName()];
    var arr := Arr([Null, Node(None, [])]);
    var v := Node(Some("FunctionDeclaration"), [("params", arr)]);
    ConfiguredTables();
    DefaultEntries(c);
    NonNodeEntriesSkipped(c, hs, "FunctionDeclaration", "params", arr, 2);
    FieldRun(c, hs, v, "FunctionDeclaration", 0);
    TwoFields(c, hs, v, "FunctionDeclaration", "id", "params");
    FieldsSnoc(c, hs, v, "FunctionDeclaration", ["id", "params"], "body");
    TableRun(c, hs, v, ["id", "params", "body"]);
  }

  /** A type-less entry of a property list dispatches to the `Property` handler. */
  lemma TypelessEntryRun(c: Config, t: string, name: string)
    requires IsPropertyList(t, "properties") && t in c.table && c.table[t] == ["properties"]
    ensures VisitChildren(c, map["Property" := LogName()], Node(Some(t), [("properties", Arr([Node(None, [("name", Str(name))])]))]))
      == Done([Pushed(Str(name))])
  {
    var hs, e := map["Property" := LogName()], Node(None, [("name", Str(name))]);
    HandledRun(c, hs, e);
    SingleEntryParent(c, hs, t, "properties", e);
  }

  /** test/traverse.js:404-431: type-less entries of `properties` are visited as `Property`,
      in an object expression and in an object pattern. */
  lemma TypelessPropertiesVisited()
    ensures VisitChildren(WithIteration(), map["Property" := LogName()],
      Node(Some("ObjectExpression"), [("properties", Arr([Node(None, [("name", Str("myExpression"))])]))]))
      == Done([Pushed(Str("myExpression"))])
    ensures VisitChildren(WithIteration(), map["Property" := LogName()],
      Node(Some("ObjectPattern"), [("properties", Arr([Node(None, [("name", Str("myPattern"))])]))]))
      == Done([Pushed(Str("myPattern"))])
  {
    ConfiguredTables();
    DefaultEntries(WithIteration());
    TypelessEntryRun(WithIteration(), "ObjectExpression", "myExpression");
    TypelessEntryRun(WithIteration(), "ObjectPattern", "myPattern");
  }

  /** test/traverse.js:481-500: whatever the identifier's `parent` points to, only `foo` is
      logged; the back-reference is never followed. */
  lemma ParentNotFollowed(parent: Val)
    ensures Visit(Defaults(), map["Identifier" := LogName()],
      Node(Some("ExpressionStatement"), [
        ("expression", Node(Some("Identifier"), [("name", Str("foo")), ("parent", parent)]))]))
      == Done([Pushed(Str("foo"))])
  {
    var c, hs := Defaults(), map["Identifier" := LogName()];
    var x := Node(Some("Identifier"), [("name", Str("foo")), ("parent", parent)]);
    ConfiguredTables();
    DefaultEntries(c);
    HandledRun(c, hs, x);
    SingleChildParent(c, hs, Node(Some("ExpressionStatement"), [("expression", x)]));
  }

  /** test/traverse.js:502-532: `childVisitorKeys` supplies the keys of an otherwise unknown
      type; neither `parent` back-reference is followed. */
  lemma ChildVisitorKeysOverride(parent: Val, grandparent: Val)
    ensures Visit(Configure(DefaultKeys(), Options(map["UnknownNode" := ["argument"]], NoFallback)),
      map["Identifier" := LogName()],
      Node(Some("ExpressionStatement"), [
        ("expression", Node(Some("UnknownNode"), [
          ("argument", Node(Some("Identifier"), [("name", Str("foo")), ("parent", parent)])),
          ("parent", grandparent)]))]))
      == Done([Pushed(Str("foo"))])
  {
    var c := Configure(DefaultKeys(), Options(map["UnknownNode" := ["argument"]], NoFallback));
    var hs := map["Identifier" := LogName()];
    var x := Node(Some("Identifier"), [("name", Str("foo")), ("parent", parent)]);
    var unknown := Node(Some("UnknownNode"), [("argument", x), ("parent", grandparent)]);
    assert c.table["UnknownNode"] == ["argument"] && c.table["ExpressionStatement"] == ["expression"];
    HandledRun(c, hs, x);
    SingleChildParent(c, hs, unknown);
    SingleChildParent(c, hs, Node(Some("ExpressionStatement"), [("expression", unknown)]));
  }
}
