// The `CheckAllNone` decorator: it stores the wrapped function, and a call through it is
// refused when every collected argument is None.
module Various {
  import opened Wrappers

  /** A Python value, as far as the decorator looks at it; `List` stands for any iterable container. */
  datatype Value = NoneValue | Int(i: int) | Str(s: string) | List(items: seq<Value>)

  /** A keyword argument: its name and its value. */
  type Keyword = (string, Value)

  /** The wrapped function, called with the positional and the keyword arguments. */
  type Function = (seq<Value>, seq<Keyword>) -> Value

  /**
   * What a call through the decorator can raise: `list()` given more than one argument or a
   * value that is not iterable (both TypeError), the AssertionError for all-None arguments, and
   * the TypeError of calling the stored function while none is stored.
   */
  datatype CallError = TooManyListArguments | NotIterable | AllArgumentsNone | NotCallable

  /** `list(v)`: the items of a container, the one-character strings of a string. */
  function Elements(v: Value): (r: Result<seq<Value>, CallError>)
    ensures r.Ok? <==> v.Str? || v.List?
    ensures v.List? ==> r == Ok(v.items)
    ensures v.Str? ==> r.Ok? && |r.value| == |v.s| && forall i :: 0 <= i < |v.s| ==> r.value[i] == Str([v.s[i]])
  {
    match v
    case Str(s) => Ok(seq(|s|, i requires 0 <= i < |s| => Str([s[i]])))
    case List(items) => Ok(items)
    case _ => Err(NotIterable)
  }

  /** `list(*args)`: no argument gives the empty list, one is iterated, more are a TypeError. */
  function ListOf(args: seq<Value>): (r: Result<seq<Value>, CallError>)
    ensures |args| == 0 ==> r == Ok([])
    ensures |args| >= 2 ==> r == Err(TooManyListArguments)
    ensures |args| == 1 ==> r == Elements(args[0])
  {
    if |args| == 0 then Ok([])
    else if |args| == 1 then Elements(args[0])
    else Err(TooManyListArguments)
  }

  function KeywordValues(kwargs: seq<Keyword>): (r: seq<Value>)
    ensures |r| == |kwargs| && forall i :: 0 <= i < |kwargs| ==> r[i] == kwargs[i].1
  {
    if kwargs == [] then [] else [kwargs[0].1] + KeywordValues(kwargs[1..])
  }

  /** The list the decorator checks: `list(*args)` extended with the keyword values. */
  function Collected(args: seq<Value>, kwargs: seq<Keyword>): (r: Result<seq<Value>, CallError>)
    ensures r.Ok? <==> ListOf(args).Ok?
    ensures r.Ok? ==> r.value == ListOf(args).value + KeywordValues(kwargs)
  {
    match ListOf(args)
    case Err(e) => Err(e)
    case Ok(values) => Ok(values + KeywordValues(kwargs))
  }

  /** `all(a is None for a in values)`. */
  function AllNone(values: seq<Value>): (r: bool)
    ensures r <==> forall i :: 0 <= i < |values| ==> values[i].NoneValue?
  {
    if values == [] then true else values[0].NoneValue? && AllNone(values[1..])
  }

  class CheckAllNone {
    var fn: Option<Function>

    constructor()
      ensures fn.None?
    {
      fn := None;
    }

    /** `__call__`: stores the function to wrap; the decorated callable is `Decorated`. */
    method Call(f: Function)
      modifies this
      ensures fn == Some(f)
    {
      fn := Some(f);
    }

    /**
     * `_decorated`: collect the arguments, refuse the call when every one is None, otherwise
     * return what the stored function returns for the original arguments.
     */
    function Decorated(args: seq<Value>, kwargs: seq<Keyword>): (r: Result<Value, CallError>)
      reads this
      ensures r == Err(AllArgumentsNone) <==> Collected(args, kwargs).Ok? && AllNone(Collected(args, kwargs).value)
      ensures r.Ok? <==> Collected(args, kwargs).Ok? && !AllNone(Collected(args, kwargs).value) && fn.Some?
      ensures r.Ok? ==> r.value == fn.value(args, kwargs)
    {
      match Collected(args, kwargs)
      case Err(e) => Err(e)
      case Ok(values) =>
        if AllNone(values) then Err(AllArgumentsNone)
        else if fn.None? then Err(NotCallable)
        else Ok(fn.value(args, kwargs))
    }
  }

  /** A call with no arguments at all is refused: `all` of an empty list is true. */
  lemma NoArgumentsRefused(c: CheckAllNone)
    ensures c.Decorated([], []) == Err(AllArgumentsNone)
  {
    assert Collected([], []) == Ok([]);
  }

  /** With only keyword arguments, the call goes through exactly when one of them is not None. */
  lemma KeywordsOnly(c: CheckAllNone, kwargs: seq<Keyword>)
    requires c.fn.Some?
    ensures c.Decorated([], kwargs).Ok? <==> exists i :: 0 <= i < |kwargs| && !kwargs[i].1.NoneValue?
  {
    var values := KeywordValues(kwargs);
    var none: seq<Value> := [];
    assert none + values == values;
    assert Collected(none, kwargs) == Ok(values);
    if !AllNone(values) {
      var i :| 0 <= i < |values| && !values[i].NoneValue?;
      assert !kwargs[i].1.NoneValue?;
    }
  }

  /** Two or more positional arguments make `list()` raise before any check. */
  lemma TwoPositionalRefused(c: CheckAllNone, args: seq<Value>, kwargs: seq<Keyword>)
    requires |args| >= 2
    ensures c.Decorated(args, kwargs) == Err(TooManyListArguments)
  {
  }

  /** A single None positional argument is not iterable: a TypeError, not the AssertionError. */
  lemma SingleNoneNotIterable(c: CheckAllNone, kwargs: seq<Keyword>)
    ensures c.Decorated([NoneValue], kwargs) == Err(NotIterable)
  {
  }

  /**
   * A single non-empty string argument passes whatever the keyword values are, since its
   * characters are never None; the call then reaches the stored function.
   */
  lemma NonEmptyStringPasses(c: CheckAllNone, s: string, kwargs: seq<Keyword>)
    requires |s| > 0 && c.fn.Some?
    ensures c.Decorated([Str(s)], kwargs) == Ok(c.fn.value([Str(s)], kwargs))
  {
    var values := Collected([Str(s)], kwargs).value;
    assert values[0] == Str([s[0]]);
  }
}
