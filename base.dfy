/**
 * Shared vocabulary of the AutoHotkey.py model: Python's optional-argument
 * sentinels, the exceptions the library raises, the numbers it formats, and
 * the abstract host that receives AutoHotkey commands.
 */
module Base {

  datatype Option<T> = None | Some(value: T)

  /** The exceptions the modelled code raises, with their messages. */
  datatype Error =
    | ValueError(msg: string)
    | TypeError(msg: string)
    | RuntimeError(msg: string)
    | AttributeError(msg: string)
    | KeyError(msg: string)      // the message is repr() of the missing key
    | AhkError(msg: string)      // ahkpy.Error / _ahk.Error

  datatype Result<T> = Ok(value: T) | Err(error: Error)

  /**
   * A keyword argument that may be left at the UNSET sentinel, passed as
   * None, or given a value.
   */
  datatype Arg<T> = Unset | Null | Given(value: T)

  /**
   * A Python number as the library sees it: an int, or a float whose
   * value is `x` and whose repr() text is `text`.
   */
  datatype Num = PyInt(i: int) | PyFloat(x: real, text: string)
  {
    function Value(): real { match this case PyInt(i) => i as real case PyFloat(x, _) => x }
  }

  /** A value passed to an AutoHotkey command. */
  datatype Value =
    | S(s: string)          // a Python str
    | I(i: int)             // a Python int
    | B(b: bool)            // a Python bool
    | NoneV                 // Python None, sent as an empty parameter
    | Callback(id: nat)     // a Python callable (by identity)
    | Wrapped(func: Value, serial: nat)  // a new callable object wrapping func; serial tells such objects apart
    | Partial(func: Value, args: seq<Value>)  // `functools.partial(func, *args)`

  /** `callable(v)`. */
  predicate Callable(v: Value) { v.Callback? || v.Wrapped? || v.Partial? }

  /** The TypeError `functools.partial` raises for a non-callable first argument. */
  const PartialError := TypeError("the first argument must be callable")

  /** `functools.partial(func, *args)`, which refuses a non-callable. */
  function PartialOf(func: Value, args: seq<Value>): (r: Result<Value>)
    ensures r.Err? <==> !Callable(func)
    ensures r.Err? ==> r.error == PartialError
    ensures r.Ok? ==> Callable(r.value) && r.value == Partial(func, args)
  {
    if !Callable(func) then Err(PartialError) else Ok(Partial(func, args))
  }

  /** `if args: func = functools.partial(func, *args)`: binding only when there are arguments. */
  function Bind(func: Value, args: seq<Value>): (r: Result<Value>)
    ensures r.Err? <==> args != [] && !Callable(func)
    ensures r.Err? ==> r.error == PartialError
    ensures r.Ok? && args == [] ==> r.value == func
    ensures r.Ok? && args != [] ==> r.value == Partial(func, args)
  {
    if args == [] then Ok(func) else PartialOf(func, args)
  }

  /** One `ahk_call(cmd, *args)`. */
  datatype Call = Call(cmd: string, args: seq<Value>)

  /** The outcome of a command sequence: what was sent, and the exception that stopped it, if any. */
  datatype Outcome = Outcome(calls: seq<Call>, error: Option<Error>)

  /** Truncation toward zero, as Python's int() does to a float. */
  function Trunc(x: real): (r: int)
    ensures x >= 0.0 ==> r as real <= x < r as real + 1.0
    ensures x < 0.0 ==> r as real - 1.0 < x <= r as real
  {
    if x >= 0.0 then x.Floor else -((-x).Floor)
  }

  /** `int(seconds * 1000)`, the library's conversion to milliseconds. */
  function Ms(seconds: real): (r: int)
    ensures seconds >= 0.0 ==> r >= 0
    ensures seconds >= 0.0 ==> r as real <= seconds * 1000.0 < r as real + 1.0
  {
    Trunc(seconds * 1000.0)
  }

  /**
   * The host: AutoHotkey receives commands in the order the library issues
   * them. Nothing is ever removed from the log.
   */
  class Host {
    var log: seq<Call>

    constructor ()
      ensures log == []
    {
      log := [];
    }

    method Emit(c: Call)
      modifies this
      ensures log == old(log) + [c]
    {
      log := log + [c];
    }

    method EmitAll(cs: seq<Call>)
      modifies this
      ensures log == old(log) + cs
    {
      log := log + cs;
    }
  }
}
