# lazyargs in Dafny

A model of the lazy-argument core of `lazyargs`. The library attaches a precondition check to a Python function. The check's arguments are written at decoration time as lazy references, such as `W[0]`, `S.name` or `W['**kwargs']['x']`. At every call they are resolved against that call's arguments, the check runs, and only then does the body run.

Modules, one per component of `lazyargs/core.py`:

- `Values`: the Python value domain and exceptions. It also holds `CallArguments`, the per-call snapshot (`args`, `kwargs`, `argsdict`, `varargs`, `varkwargs`). The behaviour of user objects comes from a `Runtime` passed as a parameter: `getattr(v, name)` and `v(*args, **kwargs)`, each of which may raise.
- `Arguments`: `Argument`, one reference into a snapshot, and its lookup (`Argument.__call__`).
- `Chained`: `ChainedArgument` as a class. Its `actions` sequence is extended in place by the three builder methods, which return the receiver. `Resolve` replays the actions in a loop and is proved equal to the left fold `ApplyAll`.
- `Factory`: `LazyArgs` with its key validation, and the strict `W` and lenient `S` instances.
- `Resolver`: `getvalue` and `resolve_lazy_args`.
- `Precondition`: `checkfunction`, `PreconditionDecorator` (`prepare_decorator`, `before_call`), and one decorated call: the check first, then the body.

Two points where the code behaves differently from what its names suggest; the model follows the code:

- A recorded action is replayed as `getattr(value, '__call__' | '__getitem__' | '__getattr__')(*args, **kwargs)` (core.py:25). It is not `getattr(value, name)`. So `W[0].x` calls `value.__getattr__('x')`, and that fails on objects that do not define `__getattr__`.
- The error kinds are Python's own. An out-of-range position raises `IndexError`. A missing strict keyword raises `KeyError`. A factory key that is a string or a non-integral float raises `ValueError`. None, containers and objects raise `TypeError`.

## Model

| member | source | states |
|---|---|---|
| `Arguments.Argument.Lookup` | lazyargs/core.py:47-62 | A position succeeds exactly when `-len(args) <= key < len(args)`. It then gives the element whose index is congruent to the key, so negative keys count from the end; otherwise it raises IndexError. A strict keyword gives `kwargs[key]` or KeyError. A lenient keyword never fails and gives `kwargs[key]`, else `argsdict[key]`, else None. `*args` and `**kwargs` give `varargs` and `varkwargs` verbatim. |
| `Arguments.LeniencyOnlyAffectsKeywords` | lazyargs/core.py:48-61 | The lenient flag does not change the lookup of positional or variadic references. |
| `Arguments.LenientExtendsStrict` | lazyargs/core.py:52-57 | Wherever a strict keyword lookup succeeds, the lenient one returns the same value, and the lenient one always succeeds. |
| `Arguments.NegativeIndexCountsFromEnd` | lazyargs/core.py:48-51 | Position `i - len(args)` names the same slot as `i`. |
| `Arguments.KeywordDefaultScenario` | lazyargs/core.py:47-61 | For `f(a, b, c=1)` called as `f(5, 10)`, with the default of `c` bound in `argsdict` only: `S.c` finds the bound default 1, `W.c` raises KeyError, and `['**kwargs']` is an empty mapping. |
| `Chained.AttributeReplayCallsDunderGetattr` | lazyargs/core.py:24-39 | `.name` is replayed as `getattr(value, '__getattr__')(name)`, not as `getattr(value, name)`. When the value has no `__getattr__`, the replay fails with that lookup's error, whatever `getattr(value, name)` would give. |
| `Chained.Evaluate` | lazyargs/core.py:21-27 | With no actions, an expression's value is its root reference's lookup. A failing root lookup is the result, whatever the actions are. |
| `Chained.ApplyAllConcat` | lazyargs/core.py:24-26 | Replaying `xs + ys` equals replaying `xs` and then `ys` on its value. A failure in `xs` is final. |
| `Chained.AppendAppliesLast` | lazyargs/core.py:21-39 | After one more builder call, the expression resolves to the old resolution with the new action applied last, for example `ref.a.b` as a step on `ref.a`. |
| `Chained.FailureHasFirstStep` | lazyargs/core.py:24-26 | A failed replay has a step that failed with that error after all earlier steps succeeded. |
| `Chained.FirstStepFailureIsFailure` | lazyargs/core.py:24-26 | If a step fails after all earlier steps succeeded, the whole replay fails with that step's error. |
| `Chained.FirstFailingStep` | lazyargs/core.py:24-27 | The replay fails with `e` if and only if some step is the first to fail, and fails with `e`. |
| `Chained.ChainedArgument.constructor` | lazyargs/core.py:17-19 | A new expression holds the given root and no actions. |
| `Chained.ChainedArgument.Call` | lazyargs/core.py:29-31 | Appends one call action with its arguments to the end of the list and returns the same object. The root and earlier actions are unchanged. |
| `Chained.ChainedArgument.GetItem` | lazyargs/core.py:33-35 | Appends one indexing action with its arguments to the end and returns the same object. |
| `Chained.ChainedArgument.GetAttr` | lazyargs/core.py:37-39 | Appends one attribute action with its arguments to the end and returns the same object. |
| `Chained.ChainedArgument.Resolve` | lazyargs/core.py:21-27 | The loop yields `ApplyAll`, the left fold of the actions over the root's value, with the first failure as the result. It has no `modifies` clause, so the actions and the root are the same before and after every call. |
| `Factory.Truncate` | lazyargs/core.py:75 | `int()` of a float truncates toward zero. The float equals that result exactly when it is integral. |
| `Factory.LazyArgs.ArgumentFor` | lazyargs/core.py:71-78 | `'*args'` and `'**kwargs'` select the variadic references. Any other key is accepted only if it equals its `int()`, as ints, bools and integral floats do, and it then becomes that position. Strings and non-integral floats raise ValueError, and other keys raise TypeError. Every reference carries the factory's flag. |
| `Factory.LazyArgs.GetItem` | lazyargs/core.py:68-78 | `factory[key]` gives a fresh expression with no actions, rooted at `ArgumentFor(key)`, or that error. |
| `Factory.LazyArgs.GetAttr` | lazyargs/core.py:80-81 | `factory.name` gives a fresh expression with no actions, rooted at a keyword reference `name` with the factory's flag. |
| `Factory.FactoryKeyExamples` | lazyargs/core.py:71-78 | `'3'` and `2.5` are rejected with ValueError. `2`, `-1` and `2.0` are positions. `None` gives TypeError. |
| `Factory.FactoriesDifferOnlyInFlag` | lazyargs/core.py:159-160 | `W` and `S` accept the same keys and build the same references, except that `W`'s are strict and `S`'s are lenient. They raise the same errors. |
| `Resolver.ResolveArgs` | lazyargs/core.py:97-98 | Resolving the positional list succeeds exactly when every element resolves. It then gives a list of the same length, with each element's value at its position. Otherwise the result is the error of the first failing element. |
| `Resolver.LiteralsPassThrough` | lazyargs/core.py:86-90 | A list of literals resolves to exactly those values. |
| `Resolver.GetValue` | lazyargs/core.py:86-90 | A chained expression gives its resolution. Any other argument is passed through unchanged. |
| `Resolver.ResolvePositional` | lazyargs/core.py:97-98 | The positional loop computes `ResolveArgs`. |
| `Resolver.ResolveKeywords` | lazyargs/core.py:100-101 | The keyword loop succeeds exactly when every keyword resolves. It then gives a map with the same keys and each key's value. Otherwise it raises the error of a failing keyword. |
| `Resolver.ResolveLazyArgs` | lazyargs/core.py:92-103 | A positional failure comes first. When everything resolves, the result is the positional values in order and the keyword values under exactly the input keys. Otherwise it raises a failing keyword's error. |
| `Precondition.CheckFunction` | lazyargs/core.py:134-142 | Calling a `checkfunction` wrapper packs the callable with exactly the call's positional and keyword arguments, without calling it. |
| `Precondition.CheckFunctionIsDirectCall` | lazyargs/core.py:134-151 | `precondition(checkfunction(f)(a, k))` is configured exactly like `precondition(f, a, k)`, and arguments passed beside the triple are discarded. |
| `Precondition.PreconditionDecorator.PrepareDecorator` | lazyargs/core.py:145-151 | The new configuration is `Normalize` of the inputs: the callable with the given lazy arguments, or a packed triple unpacked in their place. |
| `Precondition.PreconditionDecorator.BeforeCall` | lazyargs/core.py:153-155 | Passes exactly when every lazy argument resolves and the check, called with the resolved values, does not raise. The check's return value is ignored. A resolution error or the check's error is raised. |
| `Precondition.CallDecorated` | lazyargs/core.py:113-126 | The body runs if and only if the check passed, and then the call's result is the body's result. If the check raised, its error is the result and the body never ran. A positional resolution failure propagates unchanged. A keyword resolution failure propagates the error of a failing keyword. |

## Left out

- `lazyargs/api.py` is not part of this model. It wraps modules that are not available, and it repeats `checkfunction` and `PreconditionDecorator`.
- Building the snapshot from a function signature (`inspect.getargspec` / `getcallargs`) is done by an external binder. `CallArguments` is taken as an input.
- `mangle`, `BaseDecorator`, `decorator_args` and `functools.wraps` are decorator plumbing. `CallDecorated` stands for the wrapper that runs `before_call` and then the function. The lines it cites, core.py:113-126, are an inline wrapper inside the disabled string at core.py:108-133; that the live decorator runs the check before the body is assumed of `BaseDecorator`, which is not part of this model.
- User objects and check functions are a `Runtime` parameter of total functions. Side effects that one call has on later calls are not modelled, and neither is non-termination.
- Builder arguments and decoration-time literals are `Value`s. Passing a lazy expression as an argument of a recorded action, where Python would hand over the unresolved object, is not modelled.
- Attribute names that exist on `ChainedArgument` or `LazyArgs` themselves, such as dunder names or their mangled private fields, bypass `__getattr__` in Python. The model intercepts every name.
- `callable(prefunction)` is given by the `CheckSource` tag. A non-callable check that is not a triple, which fails when unpacked, is not modelled.
- `int()` on user objects that define `__int__`, `__index__` or `__eq__` is not modelled: such keys raise TypeError here. Floats are exact reals, so NaN, infinities and rounding are not modelled.
- The `RuntimeError` for an invalid key type (core.py:62) cannot occur, because `Argument` has exactly four kinds.
- Resolver.ResolveKeywords: the dict's iteration order is not modelled. When several keywords fail, the contract says only that the error is one of theirs, not which one.
- Resolver.ResolveLazyArgs: inherits the same weakening for keyword failures.
- Precondition.PreconditionDecorator.BeforeCall: inherits the same weakening for keyword failures.
- Precondition.CallDecorated: inherits the same weakening for keyword failures.
- Thread safety of building expressions while calls are running is not modelled. The model is sequential.
