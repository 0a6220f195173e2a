/** A single lazy reference into a call snapshot (`Argument` in core.py). */
module Arguments {
  import opened Values

  /** The four key types of the source ('arg', 'kwarg', '*args', '**kwargs').
      The set is closed, so the source's "invalid key type" branch cannot arise.
      `tryHarder` is the lenient flag; only keyword lookup consults it. */
  datatype Argument =
    | Positional(index: int, tryHarder: bool)
    | Keyword(name: string, tryHarder: bool)
    | VarPositional(tryHarder: bool)
    | VarKeyword(tryHarder: bool)
  {
    /** `Argument.__call__`: the referenced value of one snapshot, or the
        exception the lookup raises. */
    function Lookup(ca: CallArguments): (r: Result<Value>)
      ensures Positional? ==> (r.Ok? <==> -|ca.args| <= index < |ca.args|)
      ensures Positional? && r.Ok? ==> exists k :: 0 <= k < |ca.args| && k % |ca.args| == index % |ca.args| && r.value == ca.args[k]
      ensures Positional? && r.Err? ==> r.error == IndexError
      ensures Keyword? && name in ca.kwargs ==> r == Ok(ca.kwargs[name])
      ensures Keyword? && !tryHarder ==> (r.Ok? <==> name in ca.kwargs)
      ensures Keyword? && !tryHarder && r.Err? ==> r.error == KeyError
      ensures Keyword? && tryHarder ==> r.Ok?
      ensures Keyword? && tryHarder && name !in ca.kwargs && name in ca.argsdict ==> r == Ok(ca.argsdict[name])
      ensures Keyword? && tryHarder && name !in ca.kwargs && name !in ca.argsdict ==> r == Ok(VNone)
      ensures VarPositional? ==> r == Ok(VTuple(ca.varargs))
      ensures VarKeyword? ==> r == Ok(VDict(ca.varkwargs))
    {
      match this
      case Positional(i, _) =>
        // Python sequence indexing: a negative index counts from the end
        var n := |ca.args|;
        if 0 <= i < n then Ok(ca.args[i])
        else if -n <= i < 0 then Ok(ca.args[n + i])
        else Err(IndexError)
      case Keyword(k, lenient) =>
        if !lenient then
          if k in ca.kwargs then Ok(ca.kwargs[k]) else Err(KeyError)
        else
          // kwargs.get(k, argsdict.get(k))
          var fallback := if k in ca.argsdict then ca.argsdict[k] else VNone;
          Ok(if k in ca.kwargs then ca.kwargs[k] else fallback)
      case VarKeyword(_) => Ok(VDict(ca.varkwargs))
      case VarPositional(_) => Ok(VTuple(ca.varargs))
    }

    /** The same reference with the lenient flag replaced. */
    function WithLeniency(lenient: bool): (a: Argument)
      ensures a.tryHarder == lenient
    {
      match this
      case Positional(i, _) => Positional(i, lenient)
      case Keyword(k, _) => Keyword(k, lenient)
      case VarPositional(_) => VarPositional(lenient)
      case VarKeyword(_) => VarKeyword(lenient)
    }
  }

  /** The lenient flag changes nothing except keyword lookup. */
  lemma LeniencyOnlyAffectsKeywords(a: Argument, ca: CallArguments, lenient: bool)
    requires !a.Keyword?
    ensures a.WithLeniency(lenient).Lookup(ca) == a.Lookup(ca)
  {
  }

  /** Wherever the strict keyword lookup succeeds, the lenient one agrees with
      it; the lenient one only adds the fallbacks. */
  lemma LenientExtendsStrict(name: string, ca: CallArguments)
    ensures Keyword(name, false).Lookup(ca).Ok? ==>
      Keyword(name, true).Lookup(ca) == Keyword(name, false).Lookup(ca)
    ensures Keyword(name, true).Lookup(ca).Ok?
  {
  }

  /** A negative position `i - n` names the same slot as `i`. */
  lemma NegativeIndexCountsFromEnd(i: int, lenient: bool, ca: CallArguments)
    requires 0 <= i < |ca.args|
    ensures Positional(i - |ca.args|, lenient).Lookup(ca) == Positional(i, lenient).Lookup(ca) == Ok(ca.args[i])
  {
  }

  /** `f(a, b, c=1)` called as `f(5, 10)`, assuming the snapshot binds the
      default of `c` in `argsdict` and not in `kwargs`: then the lenient `c`
      finds it, the strict one raises, and the empty variadic mapping is a
      value, not an error. */
  lemma KeywordDefaultScenario(lenient: bool)
    ensures var ca := CallArguments([VInt(5), VInt(10)], map[],
                                    map["a" := VInt(5), "b" := VInt(10), "c" := VInt(1)], [], map[]);
      Positional(0, lenient).Lookup(ca) == Ok(VInt(5)) &&
      Keyword("c", true).Lookup(ca) == Ok(VInt(1)) &&
      Keyword("c", false).Lookup(ca) == Err(KeyError) &&
      VarKeyword(lenient).Lookup(ca) == Ok(VDict(map[]))
  {
  }
}
