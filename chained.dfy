/** Chained expressions (`ChainedArgument` in core.py): a root reference plus
    the recorded operations replayed on its value at resolution time. */
module Chained {
  import opened Values
  import opened Arguments

  /** The three intercepted special methods. */
  datatype Op = CallOp | GetItemOp | GetAttrOp

  /** The method name recorded for each operation, looked up on the value when
      the operation is replayed. */
  function MethodName(op: Op): string
  {
    match op
    case CallOp => "__call__"
    case GetItemOp => "__getitem__"
    case GetAttrOp => "__getattr__"
  }

  /** One recorded operation: its kind and the arguments it was built with. */
  datatype Action = Action(op: Op, args: seq<Value>, kwargs: map<string, Value>)

  /** Replaying one action: `getattr(value, name)(*args, **kwargs)`. */
  function Step(rt: Runtime, v: Value, a: Action): Result<Value>
  {
    match rt.getattr(v, MethodName(a.op))
    case Err(e) => Err(e)
    case Ok(m) => rt.call(m, a.args, a.kwargs)
  }

  /** Replaying a list of actions from left to right; the first failing step
      ends the replay with its error. */
  function ApplyAll(rt: Runtime, v: Value, acts: seq<Action>): Result<Value>
    decreases |acts|
  {
    if acts == [] then Ok(v)
    else
      match Step(rt, v, acts[0])
      case Err(e) => Err(e)
      case Ok(w) => ApplyAll(rt, w, acts[1..])
  }

  /** The value of a chained expression against one snapshot. */
  function Evaluate(rt: Runtime, ca: CallArguments, root: Argument, acts: seq<Action>): (r: Result<Value>)
    ensures acts == [] ==> r == root.Lookup(ca)
    ensures root.Lookup(ca).Err? ==> r == root.Lookup(ca)
  {
    match root.Lookup(ca)
    case Err(e) => Err(e)
    case Ok(v) => ApplyAll(rt, v, acts)
  }

  /** `.name` is recorded as a `__getattr__` action with `name` as its one
      argument, and replayed as `getattr(value, '__getattr__')(name)`: the
      attribute itself is never looked up. On a value without a
      `__getattr__` method the replay fails with that lookup's error, even
      when the value has an attribute `name`. */
  lemma AttributeReplayCallsDunderGetattr(rt: Runtime, v: Value, name: string)
    ensures ApplyAll(rt, v, [Action(GetAttrOp, [VStr(name)], map[])]) ==
      match rt.getattr(v, "__getattr__")
      case Err(e) => Err(e)
      case Ok(m) => rt.call(m, [VStr(name)], map[])
    ensures rt.getattr(v, "__getattr__").Err? ==>
      ApplyAll(rt, v, [Action(GetAttrOp, [VStr(name)], map[])]) == Err(rt.getattr(v, "__getattr__").error)
  {
    assert [Action(GetAttrOp, [VStr(name)], map[])][1..] == [];
  }

  /** Replaying `xs + ys` is replaying `xs`, then `ys` on its value. */
  lemma {:induction false} ApplyAllConcat(rt: Runtime, v: Value, xs: seq<Action>, ys: seq<Action>)
    ensures ApplyAll(rt, v, xs + ys) ==
      match ApplyAll(rt, v, xs)
      case Err(e) => Err(e)
      case Ok(w) => ApplyAll(rt, w, ys)
    decreases |xs|
  {
    if xs == [] {
      assert xs + ys == ys;
    } else {
      assert (xs + ys)[0] == xs[0];
      assert (xs + ys)[1..] == xs[1..] + ys;
      match Step(rt, v, xs[0])
      case Err(e) =>
      case Ok(w) => ApplyAllConcat(rt, w, xs[1..], ys);
    }
  }

  /** Appending one action to an expression applies that action last. */
  lemma AppendAppliesLast(rt: Runtime, ca: CallArguments, root: Argument, acts: seq<Action>, a: Action)
    ensures Evaluate(rt, ca, root, acts + [a]) ==
      match Evaluate(rt, ca, root, acts)
      case Err(e) => Err(e)
      case Ok(w) => Step(rt, w, a)
  {
    match root.Lookup(ca)
    case Err(_) =>
    case Ok(v) =>
      ApplyAllConcat(rt, v, acts, [a]);
      match ApplyAll(rt, v, acts)
      case Err(_) =>
      case Ok(w) =>
        assert [a][1..] == [];
  }

  /** The condition "step `k` is the first to fail, with `e`". */
  ghost predicate FailsFirstAt(rt: Runtime, v: Value, acts: seq<Action>, k: int, e: Error)
  {
    0 <= k < |acts| && ApplyAll(rt, v, acts[..k]).Ok? &&
    Step(rt, ApplyAll(rt, v, acts[..k]).value, acts[k]) == Err(e)
  }

  lemma {:induction false} FailureHasFirstStep(rt: Runtime, v: Value, acts: seq<Action>, e: Error)
    requires ApplyAll(rt, v, acts) == Err(e)
    ensures exists k :: FailsFirstAt(rt, v, acts, k, e)
    decreases |acts|
  {
    assert acts[..0] == [];
    match Step(rt, v, acts[0])
    case Err(_) =>
      assert FailsFirstAt(rt, v, acts, 0, e);
    case Ok(w) =>
      FailureHasFirstStep(rt, w, acts[1..], e);
      var k :| FailsFirstAt(rt, w, acts[1..], k, e);
      assert acts[..k + 1] == [acts[0]] + acts[1..][..k];
      ApplyAllConcat(rt, v, [acts[0]], acts[1..][..k]);
      assert [acts[0]][1..] == [];
      assert FailsFirstAt(rt, v, acts, k + 1, e);
  }

  lemma FirstStepFailureIsFailure(rt: Runtime, v: Value, acts: seq<Action>, k: int, e: Error)
    requires FailsFirstAt(rt, v, acts, k, e)
    ensures ApplyAll(rt, v, acts) == Err(e)
  {
    var rest := [acts[k]] + acts[k + 1..];
    assert acts == acts[..k] + rest;
    ApplyAllConcat(rt, v, acts[..k], rest);
    assert rest[0] == acts[k];
  }

  /** The replay fails exactly when some step fails after all earlier steps
      succeeded, and then it fails with that step's error. */
  lemma FirstFailingStep(rt: Runtime, v: Value, acts: seq<Action>, e: Error)
    ensures ApplyAll(rt, v, acts) == Err(e) <==> exists k :: FailsFirstAt(rt, v, acts, k, e)
  {
    if ApplyAll(rt, v, acts) == Err(e) {
      FailureHasFirstStep(rt, v, acts, e);
    }
    if exists k :: FailsFirstAt(rt, v, acts, k, e) {
      var k :| FailsFirstAt(rt, v, acts, k, e);
      FirstStepFailureIsFailure(rt, v, acts, k, e);
    }
  }

  /** A chained expression. The root never changes; the action list only grows
      at its end, through the three builder methods, each of which returns the
      receiver itself, so a chain of builders extends one shared object. */
  class ChainedArgument {
    const root: Argument
    var actions: seq<Action>

    constructor (root: Argument)
      ensures this.root == root && actions == []
    {
      this.root := root;
      actions := [];
    }

    /** `expr(*args, **kwargs)`: records a call. */
    method Call(args: seq<Value>, kwargs: map<string, Value>) returns (self: ChainedArgument)
      modifies this
      ensures self == this
      ensures actions == old(actions) + [Action(CallOp, args, kwargs)]
    {
      actions := actions + [Action(CallOp, args, kwargs)];
      self := this;
    }

    /** `expr[key]`: records an indexing. */
    method GetItem(args: seq<Value>, kwargs: map<string, Value>) returns (self: ChainedArgument)
      modifies this
      ensures self == this
      ensures actions == old(actions) + [Action(GetItemOp, args, kwargs)]
    {
      actions := actions + [Action(GetItemOp, args, kwargs)];
      self := this;
    }

    /** `expr.name`: records an attribute access. */
    method GetAttr(args: seq<Value>, kwargs: map<string, Value>) returns (self: ChainedArgument)
      modifies this
      ensures self == this
      ensures actions == old(actions) + [Action(GetAttrOp, args, kwargs)]
    {
      actions := actions + [Action(GetAttrOp, args, kwargs)];
      self := this;
    }

    /** What resolving this expression against `ca` yields. */
    function Denotation(rt: Runtime, ca: CallArguments): Result<Value>
      reads this
    {
      Evaluate(rt, ca, root, actions)
    }

    /** `__resolve`: look up the root, then replay every action in recorded
        order. It changes nothing, so the same expression serves every call. */
    method Resolve(rt: Runtime, ca: CallArguments) returns (r: Result<Value>)
      ensures r == Denotation(rt, ca)
    {
      var start := root.Lookup(ca);
      if start.Err? {
        return Err(start.error);
      }
      var value := start.value;
      var i := 0;
      while i < |actions|
        invariant 0 <= i <= |actions|
        invariant ApplyAll(rt, start.value, actions) == ApplyAll(rt, value, actions[i..])
      {
        var action := actions[i];
        assert actions[i..][0] == action && actions[i..][1..] == actions[i + 1..];
        var attr := rt.getattr(value, MethodName(action.op));
        if attr.Err? {
          return Err(attr.error);
        }
        var next := rt.call(attr.value, action.args, action.kwargs);
        if next.Err? {
          return Err(next.error);
        }
        value := next.value;
        i := i + 1;
      }
      return Ok(value);
    }
  }
}
