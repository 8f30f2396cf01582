/** The child-key registry: which fields of a node are its children. A per-call
    `childVisitorKeys` table is merged over the default table, type by type, and a type
    found in neither is handed to the fallback policy. */
module ChildKeys {
  import opened Wrappers
  import opened Nodes

  /** A table from node type to the ordered names of its child fields. */
  type KeyTable = map<string, seq<string>>

  /** The `fallback` option: absent (unknown types are an error), the string
      `'iteration'`, or a caller function from the node to the field names to walk. */
  datatype FallbackOption = NoFallback | Iteration | FallbackFunction(keysOf: Val -> seq<string>)

  /** The options a visitor is constructed with. */
  datatype Options = Options(childVisitorKeys: KeyTable, fallback: FallbackOption)

  /** What a visitor keeps of its options: the merged table, and the fallback function
      (if any) applied to nodes whose type is not in it. */
  datatype Config = Config(table: KeyTable, fallback: Option<Val -> seq<string>>)

  /** The default table, restricted to the node types the traversal is exercised on
      (the full per-grammar table is external data). */
  function DefaultKeys(): KeyTable
  {
    map[
      "ObjectExpression" := ["properties"],
      "ObjectPattern" := ["properties"],
      "Property" := ["key", "value"],
      "Identifier" := [],
      "Literal" := [],
      "ChainExpression" := ["expression"],
      "MemberExpression" := ["object", "property"],
      "ExpressionStatement" := ["expression"],
      "BlockStatement" := ["body"],
      "FunctionDeclaration" := ["id", "params", "body"]
    ]
  }

  /** Options with nothing set: no override table, unknown types are an error. */
  function NoOptions(): Options
  {
    Options(map[], NoFallback)
  }

  /** Builds a visitor's configuration from the default table and its options.
      The `'iteration'` fallback is the function `Object.keys`. */
  function Configure(defaults: KeyTable, options: Options): (c: Config)
    ensures c.table.Keys == defaults.Keys + options.childVisitorKeys.Keys
    ensures forall t :: t in options.childVisitorKeys ==> c.table[t] == options.childVisitorKeys[t]
    ensures forall t :: t in defaults && t !in options.childVisitorKeys ==> c.table[t] == defaults[t]
    ensures c.fallback.None? <==> options.fallback.NoFallback?
    ensures options.fallback.Iteration? ==> c.fallback == Some(OwnKeys)
    ensures options.fallback.FallbackFunction? ==> c.fallback == Some(options.fallback.keysOf)
  {
    var fallback :=
      match options.fallback
      case NoFallback => None
      case Iteration => Some(OwnKeys)
      case FallbackFunction(f) => Some(f);
    Config(defaults + options.childVisitorKeys, fallback)
  }

  /** The child field names of node `v`, whose effective type is `t`; an unknown type
      without a fallback fails with that type. */
  function ResolveKeys(c: Config, t: string, v: Val): (r: Result<seq<string>, string>)
    ensures r.Failure? <==> t !in c.table && c.fallback.None?
    ensures r.Failure? ==> r.error == t
    ensures t in c.table ==> r == Success(c.table[t])
    ensures t !in c.table && c.fallback.Some? ==> r == Success(c.fallback.value(v))
  {
    if t in c.table then Success(c.table[t])
    else if c.fallback.Some? then Success(c.fallback.value(v))
    else Failure(t)
  }

  /** The message of the error raised for an unknown type. */
  function UnknownNodeTypeMessage(t: string): (m: string)
    ensures |m| == |t| + 19
    ensures m[..18] == "Unknown node type " && m[18..|m| - 1] == t && m[|m| - 1] == '.'
  {
    "Unknown node type " + t + "."
  }

  /** An override entry replaces the default entry for its type and leaves every other
      type's resolution as the defaults alone would give it. */
  lemma OverrideIsPerType(defaults: KeyTable, options: Options, t: string, v: Val)
    ensures t in options.childVisitorKeys ==>
      ResolveKeys(Configure(defaults, options), t, v) == Success(options.childVisitorKeys[t])
    ensures t !in options.childVisitorKeys ==>
      ResolveKeys(Configure(defaults, options), t, v)
        == ResolveKeys(Configure(defaults, options.(childVisitorKeys := map[])), t, v)
  {
  }

  /** With the `'iteration'` fallback, a type in neither table walks the node's own
      property names in insertion order. */
  lemma IterationWalksOwnKeys(defaults: KeyTable, options: Options, t: string, v: Val)
    requires options.fallback.Iteration?
    requires t !in defaults && t !in options.childVisitorKeys
    ensures ResolveKeys(Configure(defaults, options), t, v) == Success(OwnKeys(v))
  {
  }
}
