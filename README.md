# esrecurse traversal, modelled in Dafny

esrecurse walks an ECMAScript syntax tree and calls a user handler for each node. The
entry points are `esrecurse.visit(tree, handlers, options)` and the `esrecurse.Visitor`
class, with its `visit` and `visitChildren` methods. This project models the engine as
`test/traverse.js` pins it down:

- **Child keys.** A node's child fields come from a per-type key table. Entries from the
  `childVisitorKeys` option replace the default entries type by type. A type in neither
  table is handled by the `fallback` option:
  - with no fallback, the walk fails with `Unknown node type T.`;
  - with `'iteration'`, the node's own property names are walked in insertion order;
  - with a function, the names that function returns are walked.
- **Effective type.** A value dispatches on `node.type || "Property"`.
- **Dispatch.** A handler registered for the effective type replaces the default walk.
  With no handler, `visitChildren` walks the listed fields in order. A node-valued field
  is visited. An array field is walked entry by entry, skipping falsy and type-less
  entries. The exception is `properties` of `ObjectExpression`/`ObjectPattern`: there
  every truthy entry is visited, and a type-less one dispatches as `Property`.
- **Unlisted fields are inert.** A field the key list does not name, such as a `parent`
  back-reference, is never read.

Layout:

- `nodes.dfy` (`Nodes`): JavaScript values as a datatype, plus property reads,
  truthiness, the effective type and `Object.keys`.
- `child_keys.dfy` (`ChildKeys`): the key tables, the options, the merged configuration,
  key resolution and the error message.
- `traversal.dfy` (`Traversal`): the traversal as pure recursive functions. Each one
  returns the ordered effects the handlers perform (`Run`), ending normally or with the
  unknown-type error.
- `traversal_facts.dfy` (`TraversalFacts`): properties that hold for every tree, table
  and handler set.
- `visitors.dfy` (`Visitors`): the `Visitor` class. Its handlers push onto its `log`
  field or increment its `counter` field. Its methods walk the tree with loops and are
  proved to perform exactly the effects the `Traversal` functions describe.
- `scenarios.dfy` (`Scenarios`): each case of `test/traverse.js`, proved as a lemma
  about the traversal functions.
- `visitor_scenarios.dfy` (`VisitorScenarios`): the `inherit Visitor` cases, run through
  the `Visitor` class.
- `wrappers.dfy` (`Wrappers`): `Option` and `Result`.

## Model

| member | source | states |
|---|---|---|
| Nodes.EffectiveType | test/traverse.js:300-328 | The dispatch type is never empty. It is `Property` for a value without a (non-empty) `type`, and the node's own `type` otherwise. |
| Nodes.Get | test/traverse.js:44-48 | `node[k]` reads the node's `type` for `k == "type"`. For any other `k` it reads the value of the first field named `k`, and undefined when there is none or `node` is not an object. |
| Nodes.OwnKeys | test/traverse.js:228-230 | `Object.keys(node)`: `type` first when present, then every field name in insertion order, one name per property, and nothing for non-objects. |
| Nodes.OwnKeysAfterSet | test/traverse.js:490 | Assigning a new property appends its name to `Object.keys`, and assigning an existing one leaves the key order as it was. |
| Nodes.SetField | test/traverse.js:481-500 | Assigning `node[k] = x` makes `node[k]` read `x` and leaves every other property and the type unchanged. |
| ChildKeys.Configure | test/traverse.js:502-532 | The merged table has the default types plus the override types. An override entry wins for its type, and every other type keeps its default entry. The fallback is absent exactly when none was given; `'iteration'` becomes `Object.keys`, and a function is kept as given. |
| ChildKeys.ResolveKeys | test/traverse.js:109-146 | Resolution fails exactly when the type is in no table and there is no fallback, and the failure names that type. A table entry is used when present; otherwise the fallback's keys are used. |
| ChildKeys.UnknownNodeTypeMessage | test/traverse.js:134-138 | The message is `Unknown node type ` followed by the type and a final `.`. |
| ChildKeys.OverrideIsPerType | test/traverse.js:502-532 | A `childVisitorKeys` entry decides its own type. Every other type resolves exactly as it would with no override. |
| ChildKeys.IterationWalksOwnKeys | test/traverse.js:150-191 | With `'iteration'`, a type in neither table resolves to the node's own property names in order. |
| Traversal.Visit | test/traverse.js:45-52 | `visit(null)` performs nothing. Any error a visit raises names a type in no table, and only arises when there is no fallback. |
| Traversal.VisitChildren | test/traverse.js:330-347 | `visitChildren(null)` performs nothing. Any error names a type in no table, and only arises without a fallback. |
| Traversal.Then | test/traverse.js:109-146 | After a failed walk nothing more runs. After a normal one, the effects are concatenated and the error is the second walk's. |
| TraversalFacts.HandlerReplacesRecursion | test/traverse.js:433-478 | A handler that does not descend yields only its own effect, whatever lies beneath the node. A handler that descends is followed by the children. With no handler, `visit` is `visitChildren`. |
| TraversalFacts.UnknownTypeFails | test/traverse.js:109-146 | A type in no table, with no fallback, fails before any handler runs: always from `visitChildren`, and from `visit` unless a handler claims the type. With a fallback nothing fails. |
| TraversalFacts.FallbackChoosesFields | test/traverse.js:193-236 | For a type outside the table, exactly the fields the fallback function names are walked. |
| TraversalFacts.FieldsInOrder | test/traverse.js:27-53 | Walking keys `a + b` is walking `a`, then `b`. |
| TraversalFacts.FieldsStep | test/traverse.js:27-53 | One more key appends that key's field walk. Once a walk has failed, the remaining keys are not walked. |
| TraversalFacts.ItemsStep | test/traverse.js:79-106 | One more array entry appends that entry's visit. |
| TraversalFacts.ItemsStopAtFailure | test/traverse.js:109-146 | Once an array walk fails, later entries are not visited. |
| TraversalFacts.MissingFieldSkipped | test/traverse.js:55-76 | A listed field that the node lacks is skipped without error. |
| TraversalFacts.FieldReadsOnlyItsValue | test/traverse.js:481-500 | A field's walk depends only on that field's value. |
| TraversalFacts.FieldsReadOnlyListed | test/traverse.js:481-500 | Two nodes that agree on the listed fields are walked identically. |
| TraversalFacts.UnlistedFieldInert | test/traverse.js:481-532 | Setting a field outside the type's key list to any value (a `parent` back-reference, say) changes neither `visit` nor `visitChildren`, unless a handler logs that field. |
| TraversalFacts.TypelessIsProperty | test/traverse.js:374-402 | A node without `type` is walked exactly as the same node tagged `Property`. |
| TraversalFacts.NonNodeEntriesSkipped | test/traverse.js:349-372 | Outside a property list, an array of null, falsy or type-less entries contributes nothing. |
| TraversalFacts.PropertyEntriesVisited | test/traverse.js:404-431 | In `properties` of `ObjectExpression`/`ObjectPattern`, every truthy entry is visited, and a type-less one dispatches as `Property`. Elsewhere only nodes are visited. |
| TraversalFacts.LeafVisitsOnce | test/traverse.js:44-48 | A node with no child fields costs at most one handler call and never fails. |
| Visitors.Visitor.constructor | test/traverse.js:265-269 | A new visitor holds its handlers and the merged configuration, with an empty log and a zero counter. |
| Visitors.Visitor.Perform | test/traverse.js:271-273 | Calling a handler appends its effect to the visitor's log or counter, and changes nothing else. |
| Visitors.Visitor.Visit | test/traverse.js:277 | The visitor's new log and counter are the old ones followed by the effects of `Traversal.Visit`, and it reports that run's error. |
| Visitors.Visitor.VisitChildren | test/traverse.js:330-372 | The same, against `Traversal.VisitChildren`. |
| Visitors.Visitor.VisitFields | test/traverse.js:239-280 | The loop over the keys performs the effects of `Traversal.VisitFields` and stops at the first error. |
| Visitors.Visitor.VisitField | test/traverse.js:79-106 | One field performs the effects of `Traversal.VisitField`. |
| Visitors.Visitor.VisitItems | test/traverse.js:79-106 | The loop over the array entries performs the effects of `Traversal.VisitItems` and stops at the first error. |
| Visitors.VisitTree | test/traverse.js:45-52 | `esrecurse.visit(tree, handlers, options)` yields exactly the log, the count and the error of `Traversal.Visit` under the merged configuration. |
| Scenarios.Except | test/traverse.js:228-230 | `keys.filter(key => key !== x)` drops `x` and keeps exactly the other keys, never growing the list. |
| Scenarios.ExceptKeepsOrder | test/traverse.js:229 | The filter keeps the other keys in order, repeats included: filtering `a + b` is filtering `a`, then `b`, and a single key survives exactly when it is not `x`. |
| Scenarios.ObjectExpressionProperties | test/traverse.js:27-53 | An object expression's property logs `['a', 'b']`. |
| Scenarios.MissingValueRecovered | test/traverse.js:55-76 | A property without `value` logs `['a']`, with no error. |
| Scenarios.ChainExpressionArray | test/traverse.js:79-106 | An array under `expression` logs `['a', 'b']`, and the boolean fields are inert. |
| Scenarios.UnknownTestStatement | test/traverse.js:109-146 | `TestStatement` under the default options fails with that type, before the `Literal` handler runs. |
| Scenarios.UnknownTestStatementMessage | test/traverse.js:134-138 | The message is exactly `Unknown node type TestStatement.`. |
| Scenarios.IterationFindsLiteral | test/traverse.js:150-191 | The iteration fallback logs exactly `[20]`. |
| Scenarios.FallbackFunctionDropsId | test/traverse.js:193-236 | A fallback that drops `id` ends without error after exactly 2 `Identifier` calls. |
| Scenarios.VisitorLogsNames | test/traverse.js:239-280 | A visitor with the iteration fallback logs `['decl', 'a', 'rest']`. |
| Scenarios.NullVisitsNothing | test/traverse.js:282-298 | `visit(null)` and `visitChildren(null)` perform nothing, whatever the handlers. |
| Scenarios.TypelessDefaultsToProperty | test/traverse.js:300-328 | A node without `type` walks `key` then `value`, through `visit` and through `visitChildren`. |
| Scenarios.NonNodeChildrenIgnored | test/traverse.js:349-372 | `visitChildren` skips null and type-less entries and does not call the root's own handler. |
| Scenarios.TypelessPropertiesVisited | test/traverse.js:404-431 | Type-less entries of `properties` are visited as `Property`, for `ObjectExpression` and for `ObjectPattern`. |
| Scenarios.BlockHandlerStopsDescent | test/traverse.js:433-478 | An empty `BlockStatement` handler hides the identifier inside the block: the log is `['decl', 'a', 'rest']`. |
| Scenarios.ParentNotFollowed | test/traverse.js:481-500 | Whatever the identifier's `parent` holds, only `foo` is logged. |
| Scenarios.ChildVisitorKeysOverride | test/traverse.js:502-532 | A `childVisitorKeys` entry supplies the keys of an otherwise unknown type, and `parent` is not followed. |
| VisitorScenarios.DerivedLogsNames | test/traverse.js:239-280 | A `Visitor` object built with the iteration fallback and the `Identifier` handler ends with log `['decl', 'a', 'rest']` and no error. |
| VisitorScenarios.DerivedIgnoresNull | test/traverse.js:282-298 | On `null`, the visitor's `visit` and `visitChildren` leave its log empty and raise nothing. |

## Left out

- The engine's own source is not part of this model. Its behaviour is reconstructed from
  the assertions of `test/traverse.js`.
- The default type-to-keys table is not modelled in full. `ChildKeys.DefaultKeys` lists
  only the types these cases use, with their usual child keys.
- Class inheritance and prototype lookup are not modelled. Handlers are an explicit map
  from type name to handler, which stands for both the handler object and the methods of
  a `Visitor` subclass.
- Merging a seed handler object into a visitor is not modelled, because every case
  passes `null`.
- Handler side effects are limited to three kinds: nothing, pushing one property of the
  node onto the log, or incrementing a counter. A handler that calls `visitChildren` does
  so after its own effect (`Handler.descend`). Arbitrary JavaScript in handlers is out of
  scope.
- Cyclic object graphs cannot be built from Dafny datatypes. The back-reference property
  is instead stated for every value a field outside the key list could hold
  (`TraversalFacts.UnlistedFieldInert`, `Scenarios.ParentNotFollowed`).
- The exception is modelled as a failed run that carries the unknown type and the
  effects performed before it. `ChildKeys.UnknownNodeTypeMessage` gives its message.
- Property order is insertion order (fields are a sequence). The integer-like key
  ordering of `Object.keys` is not modelled, and neither are `type` values that are not
  strings.
- `Object.keys` of a scalar or an array is taken as empty. In the tests the fallback is
  only applied to nodes.
- `Nodes.OwnKeys` always lists `type` first. `Object.keys` lists it where it was
  assigned, as in test/traverse.js:317-320, where `type` comes after `name`. The walk
  never differs, because the `type` key is inert, but a fallback function that slices
  the key list by position would see a different list.
- Field names within a node are not required to be distinct, and a `type` entry in the
  field list is not excluded. Reads see the first field of a name, and a `type` field
  entry is never read. Every lemma holds for such values as well.
- Numbers are mathematical integers. JavaScript's doubles, with NaN and -0 falsy, are
  not modelled; no case depends on them.
- `Nodes.Get` reads every property of an array as undefined. In JavaScript `arr["0"]`
  and `arr.length` are defined, but the engine only ever reads arrays entry by entry.
- The `fallback` option is absent, `'iteration'` or a function. Any other value is not
  representable.
- `Traversal.Visit`, `Traversal.VisitChildren`: their own contracts state only the
  error discipline and the `null` case. What they compute is stated by the
  `TraversalFacts` lemmas, by the `Scenarios` cases, and by the `Visitor` methods proved
  against them.
