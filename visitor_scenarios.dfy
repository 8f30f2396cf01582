/** The `inherit Visitor` cases of test/traverse.js:239-298, run through the `Visitor`
    class: a visitor built with the iteration fallback and an `Identifier` handler that
    pushes `node.name` onto the visitor's own log. */
module VisitorScenarios {
  import opened Wrappers
  import opened Nodes
  import opened ChildKeys
  import opened Traversal
  import opened Visitors
  import opened Scenarios

  /** The log of three pushed values is those values. */
  lemma LoggedNames(x: Val, y: Val, z: Val)
    ensures Logged([Pushed(x), Pushed(y), Pushed(z)]) == [x, y, z]
    ensures Ticks([Pushed(x), Pushed(y), Pushed(z)]) == 0
  {
    var tr := [Pushed(x), Pushed(y), Pushed(z)];
    assert [Pushed(x)][..0] == [];
    assert Logged([Pushed(x)]) == [x] && Ticks([Pushed(x)]) == 0;
    assert [Pushed(x), Pushed(y)][..1] == [Pushed(x)];
    assert Logged([Pushed(x), Pushed(y)]) == [x, y] && Ticks([Pushed(x), Pushed(y)]) == 0;
    assert tr[..2] == [Pushed(x), Pushed(y)];
  }

  /** test/traverse.js:239-280: `visitor.visit(tree)` leaves `['decl', 'a', 'rest']` in
      the visitor's log and raises nothing. */
  method DerivedLogsNames() returns (log: seq<Val>, err: Option<string>)
    ensures log == [Str("decl"), Str("a"), Str("rest")] && err == None
  {
    var visitor := new Visitor(map["Identifier" := LogName()], Options(map[], Iteration));
    err := visitor.Visit(TestStatement([]));
    VisitorLogsNames();
    LoggedNames(Str("decl"), Str("a"), Str("rest"));
    log := visitor.log;
  }

  /** test/traverse.js:282-298 and 330-347: on `null`, `visit` and `visitChildren` leave the
      visitor's log empty. */
  method DerivedIgnoresNull() returns (log: seq<Val>, err: Option<string>, err': Option<string>)
    ensures log == [] && err == None && err' == None
  {
    var visitor := new Visitor(map["Identifier" := LogName()], Options(map[], Iteration));
    err := visitor.Visit(Null);
    err' := visitor.VisitChildren(Null);
    log := visitor.log;
  }
}
