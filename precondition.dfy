/** The precondition controller (`checkfunction` and `PreconditionDecorator`
    in core.py): holds a check and its lazy arguments, and before every call
    of the decorated function resolves them and runs the check. */
module Precondition {
  import opened Values
  import opened Resolver

  /** How the check is given at decoration time: a callable, or the packed
      `(callable, args, kwargs)` triple a `checkfunction` wrapper returns. */
  datatype CheckSource =
    | Direct(check: Value)
    | Deferred(check: Value, args: seq<Lazy>, kwargs: map<string, Lazy>)

  /** `checkfunction(f)(*args, **kwargs)`: records the call's shape; `f` is
      not called, which is why no runtime is involved. */
  function CheckFunction(f: Value, args: seq<Lazy>, kwargs: map<string, Lazy>): (s: CheckSource)
    ensures s.Deferred? && s.check == f
    ensures s.args == args && s.kwargs == kwargs
  {
    Deferred(f, args, kwargs)
  }

  /** A configured check: the callable and the arguments it is given. */
  datatype Config = Config(check: Value, args: seq<Lazy>, kwargs: map<string, Lazy>)

  /** The configuration `prepare_decorator` stores: a packed triple replaces
      the decorator's own lazy arguments. */
  function Normalize(source: CheckSource, preArgs: seq<Lazy>, preKwargs: map<string, Lazy>): Config
  {
    match source
    case Direct(f) => Config(f, preArgs, preKwargs)
    case Deferred(f, a, k) => Config(f, a, k)
  }

  /** `precondition(checkfunction(f)(a, k))` configures exactly what
      `precondition(f, a, k)` does, whatever else is passed beside the triple. */
  lemma CheckFunctionIsDirectCall(f: Value, a: seq<Lazy>, k: map<string, Lazy>,
                                  extraArgs: seq<Lazy>, extraKwargs: map<string, Lazy>)
    ensures Normalize(CheckFunction(f, a, k), extraArgs, extraKwargs) == Normalize(Direct(f), a, k)
  {
  }

  /** Every lazy argument of the configuration resolves against `ca`. */
  predicate Resolvable(rt: Runtime, ca: CallArguments, c: Config)
    reads ExprsOf(c.args), KwExprsOf(c.kwargs)
  {
    ResolveArgs(rt, ca, c.args).Ok? && KwargsResolve(rt, ca, c.kwargs)
  }

  /** The check, called with the resolved values. */
  function CheckCall(rt: Runtime, ca: CallArguments, c: Config): Result<Value>
    requires Resolvable(rt, ca, c)
    reads ExprsOf(c.args), KwExprsOf(c.kwargs)
  {
    rt.call(c.check, ResolveArgs(rt, ca, c.args).value, ResolvedKwargs(rt, ca, c.kwargs))
  }

  /** The check passes for one call: every lazy argument resolves and the
      check returns without raising. */
  predicate CheckPasses(rt: Runtime, ca: CallArguments, c: Config)
    reads ExprsOf(c.args), KwExprsOf(c.kwargs)
  {
    Resolvable(rt, ca, c) && CheckCall(rt, ca, c).Ok?
  }

  class PreconditionDecorator {
    var prefunction: Value
    var preArgs: seq<Lazy>
    var preKwargs: map<string, Lazy>

    /** The decorator object before `prepare_decorator` has configured it.
        In Python the three attributes do not exist until then; the
        placeholders here are never read before `PrepareDecorator` runs. */
    constructor ()
      ensures prefunction == VNone && preArgs == [] && preKwargs == map[]
    {
      prefunction := VNone;
      preArgs := [];
      preKwargs := map[];
    }

    function Configuration(): Config
      reads this
    {
      Config(prefunction, preArgs, preKwargs)
    }

    /** `prepare_decorator`: unpacks a packed triple, else keeps the callable
        with the given lazy arguments. The decorated function is not used. */
    method PrepareDecorator(target: Value, source: CheckSource, args: seq<Lazy>, kwargs: map<string, Lazy>)
      modifies this
      ensures Configuration() == Normalize(source, args, kwargs)
    {
      var f, a, k := source.check, args, kwargs;
      if source.Deferred? {
        a, k := source.args, source.kwargs;
      }
      prefunction, preArgs, preKwargs := f, a, k;
    }

    /** `before_call`: resolves the lazy arguments against this call's
        snapshot and calls the check with them; its return value is
        discarded, and any exception propagates. */
    method BeforeCall(rt: Runtime, ca: CallArguments) returns (o: Outcome)
      ensures o.Pass? <==> CheckPasses(rt, ca, Configuration())
      ensures ResolveArgs(rt, ca, preArgs).Err? ==> o == Fail(ResolveArgs(rt, ca, preArgs).error)
      ensures ResolveArgs(rt, ca, preArgs).Ok? && !KwargsResolve(rt, ca, preKwargs) ==>
        o.Fail? && exists k :: k in preKwargs && LazyValue(rt, ca, preKwargs[k]) == Err(o.error)
      ensures Resolvable(rt, ca, Configuration()) ==> o == OutcomeOf(CheckCall(rt, ca, Configuration()))
    {
      var resolved := ResolveLazyArgs(rt, ca, preArgs, preKwargs);
      if resolved.Err? {
        return Fail(resolved.error);
      }
      var (args, kwargs) := resolved.value;
      var result := rt.call(prefunction, args, kwargs);
      o := OutcomeOf(result);
    }
  }

  /** One call of a decorated function, given the snapshot the signature
      binder built for it: the check runs first, and the body runs, with its
      original arguments, only if the check passed. `bodyRan` records whether
      the body was entered. */
  method CallDecorated(d: PreconditionDecorator, rt: Runtime, ca: CallArguments,
                       target: Value, fargs: seq<Value>, fkwargs: map<string, Value>)
    returns (r: Result<Value>, bodyRan: bool)
    ensures bodyRan <==> CheckPasses(rt, ca, d.Configuration())
    ensures bodyRan ==> r == rt.call(target, fargs, fkwargs)
    ensures !bodyRan ==> r.Err?
    ensures ResolveArgs(rt, ca, d.preArgs).Err? ==> r == Err(ResolveArgs(rt, ca, d.preArgs).error)
    ensures ResolveArgs(rt, ca, d.preArgs).Ok? && !KwargsResolve(rt, ca, d.preKwargs) ==>
      r.Err? && exists k :: k in d.preKwargs && LazyValue(rt, ca, d.preKwargs[k]) == Err(r.error)
    ensures Resolvable(rt, ca, d.Configuration()) && CheckCall(rt, ca, d.Configuration()).Err? ==>
      r == Err(CheckCall(rt, ca, d.Configuration()).error)
  {
    var checked := d.BeforeCall(rt, ca);
    if checked.Fail? {
      return Err(checked.error), false;
    }
    r := rt.call(target, fargs, fkwargs);
    bodyRan := true;
  }
}
