/** The reusable `Visitor` object and the one-shot `visit(tree, handlers, options)` entry
    point. A visitor is built once from its handlers and options; its handlers act on
    the visitor's state, a log they push onto and a counter they increment. Its `Visit`
    and `VisitChildren` methods walk the tree step by step and are proved to perform
    exactly the effects the traversal functions describe, stopping at the first
    unknown-type error. */
module Visitors {
  import opened Wrappers
  import opened Nodes
  import opened ChildKeys
  import opened Traversal
  import opened TraversalFacts

  class Visitor {
    const handlers: Handlers
    const config: Config
    var log: seq<Val>
    var counter: nat

    /** The visitor's state is its state at `log0`/`counter0` followed by the effects of
        run `r`, and `err` is the error `r` raised, if any. */
    ghost predicate Reflects(log0: seq<Val>, counter0: nat, r: Run, err: Option<string>)
      reads this
    {
      log == log0 + Logged(r.trace) && counter == counter0 + Ticks(r.trace) && err == r.Error()
    }

    /** A visitor over the default key table with the given handlers and options. */
    constructor (handlers: Handlers, options: Options)
      ensures this.handlers == handlers && config == Configure(DefaultKeys(), options)
      ensures log == [] && counter == 0
    {
      this.handlers := handlers;
      this.config := Configure(DefaultKeys(), options);
      log := [];
      counter := 0;
    }

    /** Calls handler `h` on `v`: performs its effect on the visitor's state. */
    method Perform(h: Handler, v: Val)
      modifies this
      ensures log == old(log) + Logged(Own(h, v)) && counter == old(counter) + Ticks(Own(h, v))
    {
      match h.effect
      case Quiet =>
      case Push(f) =>
        log := log + [Get(v, f)];
      case Tick =>
        counter := counter + 1;
    }

    /** `visitor.visit(v)`. */
    method Visit(v: Val) returns (err: Option<string>)
      modifies this
      ensures Reflects(old(log), old(counter), Traversal.Visit(config, handlers, v), err)
      decreases v, 3, 0
    {
      if v.Null? {
        return None;
      }
      var t := EffectiveType(v);
      if t in handlers {
        var h := handlers[t];
        Perform(h, v);
        if h.descend {
          ghost var log1, counter1 := log, counter;
          err := VisitChildren(v);
          ChainEffects(old(log), log1, log, old(counter), counter1, counter,
            Done(Own(h, v)), Traversal.VisitChildren(config, handlers, v));
        } else {
          err := None;
        }
      } else {
        err := VisitChildren(v);
      }
    }

    /** `visitor.visitChildren(v)`: the resolved child fields, in order. */
    method VisitChildren(v: Val) returns (err: Option<string>)
      modifies this
      ensures Reflects(old(log), old(counter), Traversal.VisitChildren(config, handlers, v), err)
      decreases v, 2, 0
    {
      if v.Null? {
        return None;
      }
      var t := EffectiveType(v);
      var resolved := ResolveKeys(config, t, v);
      if resolved.Failure? {
        assert Traversal.VisitChildren(config, handlers, v) == Failed([], resolved.error);
        return Some(resolved.error);
      }
      assert Traversal.VisitChildren(config, handlers, v) == Traversal.VisitFields(config, handlers, v, t, resolved.value);
      err := VisitFields(v, t, resolved.value);
    }

    /** The child fields `keys` of `v`, whose effective type is `t`, in order. */
    method VisitFields(v: Val, t: string, keys: seq<string>) returns (err: Option<string>)
      modifies this
      ensures Reflects(old(log), old(counter), Traversal.VisitFields(config, handlers, v, t, keys), err)
      decreases v, 1, 0
    {
      var i := 0;
      while i < |keys|
        invariant 0 <= i <= |keys|
        invariant Traversal.VisitFields(config, handlers, v, t, keys[..i]).Done?
        invariant Reflects(old(log), old(counter), Traversal.VisitFields(config, handlers, v, t, keys[..i]), None)
      {
        ghost var done := Traversal.VisitFields(config, handlers, v, t, keys[..i]);
        ghost var step := Traversal.VisitField(config, handlers, v, t, keys[i]);
        ghost var log1, counter1 := log, counter;
        FieldsStep(config, handlers, v, t, keys, i);
        err := VisitField(v, t, keys[i]);
        ChainEffects(old(log), log1, log, old(counter), counter1, counter, done, step);
        if err.Some? {
          return;
        }
        i := i + 1;
      }
      assert keys[..|keys|] == keys;
      err := None;
    }

    /** One child field `k` of `v`, whose effective type is `t`. */
    method VisitField(v: Val, t: string, k: string) returns (err: Option<string>)
      modifies this
      ensures Reflects(old(log), old(counter), Traversal.VisitField(config, handlers, v, t, k), err)
      decreases v, 0, 0
    {
      if k == "type" || !v.Node? {
        return None;
      }
      var index := FieldIndex(v.fields, k);
      if index.None? {
        return None;
      }
      var child := v.fields[index.value].1;
      if child.Arr? {
        err := VisitItems(t, k, child);
      } else if IsNode(child) {
        err := Visit(child);
      } else {
        err := None;
      }
    }

    /** The entries of array `arr`, held in field `k` of a node of type `t`, in order. */
    method VisitItems(t: string, k: string, arr: Val) returns (err: Option<string>)
      requires arr.Arr?
      modifies this
      ensures Reflects(old(log), old(counter), Traversal.VisitItems(config, handlers, t, k, arr, |arr.items|), err)
      decreases arr, 2, 0
    {
      var j := 0;
      while j < |arr.items|
        invariant 0 <= j <= |arr.items|
        invariant Traversal.VisitItems(config, handlers, t, k, arr, j).Done?
        invariant Reflects(old(log), old(counter), Traversal.VisitItems(config, handlers, t, k, arr, j), None)
      {
        var e := arr.items[j];
        ghost var done := Traversal.VisitItems(config, handlers, t, k, arr, j);
        ghost var step := VisitEntry(config, handlers, t, k, e);
        ghost var log1, counter1 := log, counter;
        ItemsStep(config, handlers, t, k, arr, j);
        if Truthy(e) && (IsNode(e) || IsPropertyList(t, k)) {
          err := Visit(e);
        } else {
          err := None;
        }
        ChainEffects(old(log), log1, log, old(counter), counter1, counter, done, step);
        if err.Some? {
          ItemsStopAtFailure(config, handlers, t, k, arr, j + 1, |arr.items|);
          return;
        }
        j := j + 1;
      }
      err := None;
    }
  }

  /** `esrecurse.visit(tree, handlers, options)`: a fresh visitor over the default table
      walks `tree`; the result is what its handlers logged and counted, and the error
      raised, if any. */
  method VisitTree(tree: Val, handlers: Handlers, options: Options) returns (log: seq<Val>, counter: nat, err: Option<string>)
    ensures var r := Traversal.Visit(Configure(DefaultKeys(), options), handlers, tree);
      log == Logged(r.trace) && counter == Ticks(r.trace) && err == r.Error()
  {
    var visitor := new Visitor(handlers, options);
    err := visitor.Visit(tree);
    log, counter := visitor.log, visitor.counter;
  }
}
