/** The traversal engine: `visit` dispatches a value to the handler registered for its
    effective type, or walks its children when there is none; `visitChildren` walks the
    resolved child fields in order, array entries in order, skipping what is not a node.
    A traversal is a pure function from the tree to the ordered effects its handlers
    perform, ending either normally or with the unknown-type error. */
module Traversal {
  import opened Wrappers
  import opened Nodes
  import opened ChildKeys

  /** What a handler does when it is called on a node: nothing, push one property of the
      node onto the log, or increment a counter. */
  datatype Effect = Quiet | Push(field: string) | Tick

  /** A handler: its effect, and whether it then calls `visitChildren` on the node. */
  datatype Handler = Handler(effect: Effect, descend: bool)

  /** Handlers keyed by the exact node-type name they handle. */
  type Handlers = map<string, Handler>

  /** One effect a handler performed. */
  datatype Out = Pushed(value: Val) | Ticked

  /** The ordered effects of a traversal, and whether it ended by raising
      `Unknown node type <unknown>.` (effects performed before the raise persist). */
  datatype Run = Done(trace: seq<Out>) | Failed(trace: seq<Out>, unknown: string)
  {
    function Error(): Option<string>
    {
      if Failed? then Some(unknown) else None
    }
  }

  /** Effects `t` performed before the run `r`. */
  function Prefix(t: seq<Out>, r: Run): (r': Run)
    ensures r'.trace == t + r.trace
    ensures r'.Error() == r.Error()
  {
    match r
    case Done(u) => Done(t + u)
    case Failed(u, e) => Failed(t + u, e)
  }

  /** Run `r1`, then `r2` unless `r1` raised. */
  function Then(r1: Run, r2: Run): (r: Run)
    ensures r1.Failed? ==> r == r1
    ensures r1.Done? ==> r.trace == r1.trace + r2.trace && r.Error() == r2.Error()
  {
    if r1.Failed? then r1 else Prefix(r1.trace, r2)
  }

  /** The effects of calling handler `h` on `v`. */
  function Own(h: Handler, v: Val): (o: seq<Out>)
    ensures |o| == (if h.effect.Quiet? then 0 else 1)
  {
    match h.effect
    case Quiet => []
    case Push(f) => [Pushed(Get(v, f))]
    case Tick => [Ticked]
  }

  /** The one field whose array entries are visited even without a `type`: `properties`
      of an object expression or object pattern. */
  predicate IsPropertyList(t: string, k: string)
  {
    (t == "ObjectExpression" || t == "ObjectPattern") && k == "properties"
  }

  /** Every error a run reports names a type that is in no key table, and only arises
      when there is no fallback. */
  predicate Blames(c: Config, r: Run)
  {
    r.Failed? ==> r.unknown !in c.table && c.fallback.None?
  }

  /** `visit(v)`. */
  function Visit(c: Config, hs: Handlers, v: Val): (r: Run)
    ensures Blames(c, r)
    ensures v.Null? ==> r == Done([])
    decreases v, 3, 0
  {
    if v.Null? then Done([])
    else
      var t := EffectiveType(v);
      if t in hs then
        var h := hs[t];
        if h.descend then Prefix(Own(h, v), VisitChildren(c, hs, v)) else Done(Own(h, v))
      else VisitChildren(c, hs, v)
  }

  /** `visitChildren(v)`. */
  function VisitChildren(c: Config, hs: Handlers, v: Val): (r: Run)
    ensures Blames(c, r)
    ensures v.Null? ==> r == Done([])
    decreases v, 2, 0
  {
    if v.Null? then Done([])
    else
      var t := EffectiveType(v);
      match ResolveKeys(c, t, v)
      case Failure(u) => Failed([], u)
      case Success(keys) => VisitFields(c, hs, v, t, keys)
  }

  /** The child fields `keys` of `v` (effective type `t`), in order. */
  function VisitFields(c: Config, hs: Handlers, v: Val, t: string, keys: seq<string>): (r: Run)
    ensures Blames(c, r)
    decreases v, 1, |keys|
  {
    if keys == [] then Done([])
    else Then(VisitFields(c, hs, v, t, keys[..|keys| - 1]), VisitField(c, hs, v, t, keys[|keys| - 1]))
  }

  /** One child field `k` of `v`: an array is walked entry by entry, a node is visited,
      anything else (missing, null, a scalar, an object without `type`) is inert. */
  function VisitField(c: Config, hs: Handlers, v: Val, t: string, k: string): (r: Run)
    ensures Blames(c, r)
    decreases v, 0, 0
  {
    if k == "type" || !v.Node? then Done([])
    else
      match FieldIndex(v.fields, k)
      case None => Done([])
      case Some(i) =>
        var child := v.fields[i].1;
        if child.Arr? then VisitItems(c, hs, t, k, child, |child.items|)
        else if IsNode(child) then Visit(c, hs, child)
        else Done([])
  }

  /** The first `n` entries of array `arr`, held in field `k` of a node of type `t`. */
  function VisitItems(c: Config, hs: Handlers, t: string, k: string, arr: Val, n: nat): (r: Run)
    requires arr.Arr? && n <= |arr.items|
    ensures Blames(c, r)
    decreases arr, 1, n
  {
    if n == 0 then Done([])
    else Then(VisitItems(c, hs, t, k, arr, n - 1), VisitEntry(c, hs, t, k, arr.items[n - 1]))
  }

  /** One array entry: visited when truthy and a node, or when it sits in a property
      list; skipped otherwise. */
  function VisitEntry(c: Config, hs: Handlers, t: string, k: string, e: Val): (r: Run)
    ensures Blames(c, r)
    decreases e, 4, 0
  {
    if Truthy(e) && (IsNode(e) || IsPropertyList(t, k)) then Visit(c, hs, e) else Done([])
  }

  /** The values the handlers pushed onto the log, in order. */
  function Logged(trace: seq<Out>): (log: seq<Val>)
    ensures |log| <= |trace|
  {
    if trace == [] then []
    else Logged(trace[..|trace| - 1]) + (if trace[|trace| - 1].Pushed? then [trace[|trace| - 1].value] else [])
  }

  /** How often the handlers incremented the counter. */
  function Ticks(trace: seq<Out>): (n: nat)
    ensures n <= |trace|
  {
    if trace == [] then 0
    else Ticks(trace[..|trace| - 1]) + (if trace[|trace| - 1].Ticked? then 1 else 0)
  }

  lemma {:induction false} LoggedAppend(a: seq<Out>, b: seq<Out>)
    ensures Logged(a + b) == Logged(a) + Logged(b)
    ensures Ticks(a + b) == Ticks(a) + Ticks(b)
    decreases |b|
  {
    if b != [] {
      var b' := b[..|b| - 1];
      assert (a + b)[..|a + b| - 1] == a + b';
      LoggedAppend(a, b');
    } else {
      assert a + b == a;
    }
  }

  /** State that has taken the effects of `r1` and then those of `r2` has taken the
      effects of `Then(r1, r2)`. */
  lemma ChainEffects(log0: seq<Val>, log1: seq<Val>, log2: seq<Val>, n0: nat, n1: nat, n2: nat, r1: Run, r2: Run)
    requires r1.Done?
    requires log1 == log0 + Logged(r1.trace) && n1 == n0 + Ticks(r1.trace)
    requires log2 == log1 + Logged(r2.trace) && n2 == n1 + Ticks(r2.trace)
    ensures log2 == log0 + Logged(Then(r1, r2).trace) && n2 == n0 + Ticks(Then(r1, r2).trace)
  {
    ThenEffects(r1, r2);
    assert log0 + Logged(r1.trace) + Logged(r2.trace) == log0 + (Logged(r1.trace) + Logged(r2.trace));
  }

  /** The effects of `Then(r1, r2)` after a normal `r1` are those of `r1`, then of `r2`. */
  lemma ThenEffects(r1: Run, r2: Run)
    requires r1.Done?
    ensures Logged(Then(r1, r2).trace) == Logged(r1.trace) + Logged(r2.trace)
    ensures Ticks(Then(r1, r2).trace) == Ticks(r1.trace) + Ticks(r2.trace)
    ensures Then(r1, r2).Error() == r2.Error()
  {
    LoggedAppend(r1.trace, r2.trace);
  }
}
