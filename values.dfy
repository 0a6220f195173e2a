/** Python values, exceptions and the per-call argument snapshot that lazy
    references are resolved against. */
module Values {

  /** The abstract Python value domain. User objects are opaque handles whose
      behaviour is given by a `Runtime`. */
  datatype Value =
    | VNone
    | VBool(b: bool)
    | VInt(i: int)
    | VFloat(x: real)
    | VStr(s: string)
    | VTuple(items: seq<Value>)
    | VDict(entries: map<string, Value>)
    | VObj(id: nat)

  /** Exceptions. `Raised` is whatever user code raises, passed on verbatim. */
  datatype Error =
    | IndexError
    | KeyError
    | ValueError
    | TypeError
    | AttributeError
    | Raised(exception: Value)

  datatype Result<+T> = Ok(value: T) | Err(error: Error)

  /** The outcome of a call whose return value is discarded. */
  datatype Outcome = Pass | Fail(error: Error)

  /** A call's outcome once its return value is dropped. */
  function OutcomeOf<T>(r: Result<T>): Outcome
  {
    match r
    case Ok(_) => Pass
    case Err(e) => Fail(e)
  }

  /** The behaviour of objects this library does not define: `getattr(v, name)`
      and `v(*args, **kwargs)`. Both may fail with any exception. */
  datatype Runtime = Runtime(
    getattr: (Value, string) -> Result<Value>,
    call: (Value, seq<Value>, map<string, Value>) -> Result<Value>)

  /** One invocation's arguments, as produced by the signature binder:
      the positional values as passed, the keywords as passed, the declared
      parameters bound by name, and the two variadic containers. */
  datatype CallArguments = CallArguments(
    args: seq<Value>,
    kwargs: map<string, Value>,
    argsdict: map<string, Value>,
    varargs: seq<Value>,
    varkwargs: map<string, Value>)
}
