/** The lazy-argument factory (`LazyArgs` in core.py) and its two standing
    instances, the strict `W` and the lenient `S`. */
module Factory {
  import opened Values
  import opened Arguments
  import opened Chained

  /** Python's `int(x)` on a float: truncation toward zero. */
  function Truncate(x: real): (n: int)
    ensures 0.0 <= x ==> n as real <= x < n as real + 1.0
    ensures x < 0.0 ==> n as real - 1.0 < x <= n as real
    ensures x == n as real <==> x == x.Floor as real
  {
    if x >= 0.0 then x.Floor
    else
      var m := (-x).Floor;
      assert m as real <= -x < m as real + 1.0;
      assert x == (-m) as real <==> x == x.Floor as real by {
        if x == x.Floor as real {
          assert -x == (-x.Floor) as real;
          assert (-x).Floor == -x.Floor;
        }
      }
      -m
  }

  /** The two tokens that name the variadic containers. */
  predicate IsReservedKey(key: Value)
  {
    key == VStr("*args") || key == VStr("**kwargs")
  }

  /** A key `LazyArgs[key]` accepts as a position: one equal to its own `int()`. */
  predicate IsIntegral(key: Value)
  {
    key.VInt? || key.VBool? || (key.VFloat? && key.x == key.x.Floor as real)
  }

  /** The position an integral key denotes. */
  function PositionOf(key: Value): int
    requires IsIntegral(key)
  {
    match key
    case VInt(i) => i
    case VBool(b) => if b then 1 else 0
    case VFloat(x) => x.Floor
  }

  datatype LazyArgs = LazyArgs(tryHarder: bool)
  {
    /** The root reference `self[key]` builds, or the exception it raises.
        The reserved tokens select a variadic container. Any other key goes
        through `int(key)`: a string never equals an int, so whether `int`
        parses it or raises, the result is a ValueError; a float survives only
        if integral; None, tuples, dicts and objects make `int` (or hashing)
        raise a TypeError. */
    function ArgumentFor(key: Value): (r: Result<Argument>)
      ensures r.Ok? ==> r.value.tryHarder == tryHarder
      ensures key == VStr("*args") ==> r == Ok(VarPositional(tryHarder))
      ensures key == VStr("**kwargs") ==> r == Ok(VarKeyword(tryHarder))
      ensures !IsReservedKey(key) ==> (r.Ok? <==> IsIntegral(key))
      ensures !IsReservedKey(key) && IsIntegral(key) ==> r == Ok(Positional(PositionOf(key), tryHarder))
      ensures r.Err? && (key.VStr? || key.VFloat?) ==> r.error == ValueError
      ensures r.Err? && !key.VStr? && !key.VFloat? ==> r.error == TypeError
    {
      if IsReservedKey(key) then
        if key.s == "*args" then Ok(VarPositional(tryHarder)) else Ok(VarKeyword(tryHarder))
      else
        match key
        case VInt(i) => Ok(Positional(i, tryHarder))
        case VBool(b) => Ok(Positional(if b then 1 else 0, tryHarder))
        case VFloat(x) =>
          var intkey := Truncate(x);
          if x != intkey as real then Err(ValueError) else Ok(Positional(intkey, tryHarder))
        case VStr(_) => Err(ValueError)
        case _ => Err(TypeError)
    }

    /** `self[key]`: a fresh expression with no actions rooted at the
        reference `ArgumentFor` gives. */
    method GetItem(key: Value) returns (r: Result<ChainedArgument>)
      ensures r.Ok? <==> ArgumentFor(key).Ok?
      ensures r.Err? ==> r.error == ArgumentFor(key).error
      ensures r.Ok? ==> fresh(r.value) && r.value.root == ArgumentFor(key).value && r.value.actions == []
    {
      var a := ArgumentFor(key);
      if a.Err? {
        return Err(a.error);
      }
      var e := new ChainedArgument(a.value);
      return Ok(e);
    }

    /** `self.name`: a fresh expression with no actions rooted at the keyword
        reference `name`, carrying the factory's flag. */
    method GetAttr(name: string) returns (e: ChainedArgument)
      ensures fresh(e) && e.root == Keyword(name, tryHarder) && e.actions == []
    {
      e := new ChainedArgument(Keyword(name, tryHarder));
    }
  }

  /** The strict factory. */
  const W := LazyArgs(false)
  /** The lenient factory. */
  const S := LazyArgs(true)

  /** Sample keys: `'3'` and `2.5` are refused with a ValueError,
      `2`, `-1` and `2.0` are positions, `None` is a TypeError. */
  lemma FactoryKeyExamples(f: LazyArgs)
    ensures f.ArgumentFor(VStr("3")) == Err(ValueError)
    ensures f.ArgumentFor(VFloat(2.5)) == Err(ValueError)
    ensures f.ArgumentFor(VInt(2)) == Ok(Positional(2, f.tryHarder))
    ensures f.ArgumentFor(VInt(-1)) == Ok(Positional(-1, f.tryHarder))
    ensures f.ArgumentFor(VFloat(2.0)) == Ok(Positional(2, f.tryHarder))
    ensures f.ArgumentFor(VNone) == Err(TypeError)
  {
  }

  /** `W` and `S` build the same references and refuse the same keys; only
      the lenient flag differs. */
  lemma FactoriesDifferOnlyInFlag(key: Value)
    ensures W.ArgumentFor(key).Ok? <==> S.ArgumentFor(key).Ok?
    ensures W.ArgumentFor(key).Ok? ==>
      !W.ArgumentFor(key).value.tryHarder &&
      S.ArgumentFor(key).value == W.ArgumentFor(key).value.WithLeniency(true)
    ensures W.ArgumentFor(key).Err? ==> S.ArgumentFor(key).error == W.ArgumentFor(key).error
  {
  }
}
