/** The resolver (`getvalue` and `resolve_lazy_args` in core.py): turns the
    decoration-time arguments, a mix of chained expressions and literals, into
    the concrete values of one call. */
module Resolver {
  import opened Values
  import opened Chained

  /** A decoration-time argument: a chained expression or a literal. */
  datatype Lazy = Expr(expr: ChainedArgument) | Literal(value: Value)

  /** The expressions a positional list refers to. */
  function ExprsOf(xs: seq<Lazy>): set<ChainedArgument>
  {
    set x | x in xs && x.Expr? :: x.expr
  }

  /** The expressions a keyword map refers to. */
  function KwExprsOf(kws: map<string, Lazy>): set<ChainedArgument>
  {
    set k | k in kws && kws[k].Expr? :: kws[k].expr
  }

  /** What one argument resolves to: an expression's denotation, or the
      literal itself. */
  function LazyValue(rt: Runtime, ca: CallArguments, x: Lazy): Result<Value>
    reads if x.Expr? then {x.expr} else {}
  {
    match x
    case Expr(e) => e.Denotation(rt, ca)
    case Literal(v) => Ok(v)
  }

  /** Resolving the positional list from left to right: the values in order,
      or the error of the first element that fails. */
  function ResolveArgs(rt: Runtime, ca: CallArguments, xs: seq<Lazy>): (r: Result<seq<Value>>)
    reads ExprsOf(xs)
    ensures r.Ok? <==> forall i :: 0 <= i < |xs| ==> LazyValue(rt, ca, xs[i]).Ok?
    ensures r.Ok? ==> (|r.value| == |xs| &&
      forall i :: 0 <= i < |xs| ==> LazyValue(rt, ca, xs[i]) == Ok(r.value[i]))
    ensures forall i :: (0 <= i < |xs| && LazyValue(rt, ca, xs[i]).Err? &&
      (forall j :: 0 <= j < i ==> LazyValue(rt, ca, xs[j]).Ok?)) ==>
      r == Err(LazyValue(rt, ca, xs[i]).error)
    decreases |xs|
  {
    if xs == [] then Ok([])
    else
      assert xs[0] in xs;
      match LazyValue(rt, ca, xs[0])
      case Err(e) => Err(e)
      case Ok(v) =>
        assert forall x :: x in xs[1..] ==> x in xs;
        match ResolveArgs(rt, ca, xs[1..])
        case Err(e) => Err(e)
        case Ok(vs) => Ok([v] + vs)
  }

  /** Every keyword argument resolves. */
  predicate KwargsResolve(rt: Runtime, ca: CallArguments, kws: map<string, Lazy>)
    reads KwExprsOf(kws)
  {
    forall k :: k in kws ==> LazyValue(rt, ca, kws[k]).Ok?
  }

  /** The resolved keyword map: the same keys, each with its value. */
  function ResolvedKwargs(rt: Runtime, ca: CallArguments, kws: map<string, Lazy>): map<string, Value>
    requires KwargsResolve(rt, ca, kws)
    reads KwExprsOf(kws)
  {
    map k | k in kws :: LazyValue(rt, ca, kws[k]).value
  }

  /** Literals pass through the resolver unchanged. */
  lemma {:induction false} LiteralsPassThrough(rt: Runtime, ca: CallArguments, vs: seq<Value>)
    ensures ResolveArgs(rt, ca, seq(|vs|, i requires 0 <= i < |vs| => Literal(vs[i]))) == Ok(vs)
    decreases |vs|
  {
    var xs := seq(|vs|, i requires 0 <= i < |vs| => Literal(vs[i]));
    if vs != [] {
      assert xs[1..] == seq(|vs[1..]|, i requires 0 <= i < |vs[1..]| => Literal(vs[1..][i]));
      LiteralsPassThrough(rt, ca, vs[1..]);
      assert vs == [vs[0]] + vs[1..];
    }
  }

  /** `getvalue`: resolve an expression, pass anything else through. */
  method GetValue(rt: Runtime, ca: CallArguments, x: Lazy) returns (r: Result<Value>)
    ensures r == LazyValue(rt, ca, x)
  {
    match x
    case Expr(e) => r := e.Resolve(rt, ca);
    case Literal(v) => r := Ok(v);
  }

  /** The first loop of `resolve_lazy_args`: the positional list, in order. */
  method ResolvePositional(rt: Runtime, ca: CallArguments, lazyArgs: seq<Lazy>) returns (r: Result<seq<Value>>)
    ensures r == ResolveArgs(rt, ca, lazyArgs)
  {
    var processedArgs := [];
    var i := 0;
    while i < |lazyArgs|
      invariant 0 <= i <= |lazyArgs| && |processedArgs| == i
      invariant forall j :: 0 <= j < i ==> LazyValue(rt, ca, lazyArgs[j]) == Ok(processedArgs[j])
    {
      var v := GetValue(rt, ca, lazyArgs[i]);
      if v.Err? {
        return Err(v.error);
      }
      processedArgs := processedArgs + [v.value];
      i := i + 1;
    }
    assert processedArgs == ResolveArgs(rt, ca, lazyArgs).value;
    return Ok(processedArgs);
  }

  /** The second loop of `resolve_lazy_args`: the keyword map, in its
      iteration order, which is not modelled; a failure carries the error of
      some failing keyword. */
  method ResolveKeywords(rt: Runtime, ca: CallArguments, lazyKwargs: map<string, Lazy>) returns (r: Result<map<string, Value>>)
    ensures r.Ok? <==> KwargsResolve(rt, ca, lazyKwargs)
    ensures r.Ok? ==> r.value == ResolvedKwargs(rt, ca, lazyKwargs)
    ensures r.Err? ==> exists k :: k in lazyKwargs && LazyValue(rt, ca, lazyKwargs[k]) == Err(r.error)
  {
    var processedKwargs := map[];
    var remaining := lazyKwargs.Keys;
    while remaining != {}
      invariant remaining <= lazyKwargs.Keys
      invariant processedKwargs.Keys == lazyKwargs.Keys - remaining
      invariant forall k :: k in processedKwargs ==> LazyValue(rt, ca, lazyKwargs[k]) == Ok(processedKwargs[k])
      decreases |remaining|
    {
      var k :| k in remaining;
      var v := GetValue(rt, ca, lazyKwargs[k]);
      if v.Err? {
        return Err(v.error);
      }
      processedKwargs := processedKwargs[k := v.value];
      remaining := remaining - {k};
    }
    assert processedKwargs == ResolvedKwargs(rt, ca, lazyKwargs);
    return Ok(processedKwargs);
  }

  /** `resolve_lazy_args`: the positional values in order and the keyword
      values under their own keys; the first positional failure propagates,
      and otherwise a keyword failure does. */
  method ResolveLazyArgs(rt: Runtime, ca: CallArguments, lazyArgs: seq<Lazy>, lazyKwargs: map<string, Lazy>)
    returns (r: Result<(seq<Value>, map<string, Value>)>)
    ensures ResolveArgs(rt, ca, lazyArgs).Err? ==> r == Err(ResolveArgs(rt, ca, lazyArgs).error)
    ensures ResolveArgs(rt, ca, lazyArgs).Ok? && KwargsResolve(rt, ca, lazyKwargs) ==>
      r == Ok((ResolveArgs(rt, ca, lazyArgs).value, ResolvedKwargs(rt, ca, lazyKwargs)))
    ensures ResolveArgs(rt, ca, lazyArgs).Ok? && !KwargsResolve(rt, ca, lazyKwargs) ==>
      r.Err? && exists k :: k in lazyKwargs && LazyValue(rt, ca, lazyKwargs[k]) == Err(r.error)
  {
    var positional := ResolvePositional(rt, ca, lazyArgs);
    if positional.Err? {
      return Err(positional.error);
    }
    var keywords := ResolveKeywords(rt, ca, lazyKwargs);
    if keywords.Err? {
      return Err(keywords.error);
    }
    assert positional.value == ResolveArgs(rt, ca, lazyArgs).value;
    assert keywords.value == ResolvedKwargs(rt, ca, lazyKwargs);
    return Ok((positional.value, keywords.value));
  }
}
