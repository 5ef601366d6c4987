/** The loosely typed values that `json.load` produces, and the few Python
    built-ins the data processor applies to them: truthiness (`not x`),
    `dict.get` with a default, and `float(x)`.

    Python's `int` and `float` are both `Num`; floating-point rounding,
    infinities and NaN are not modelled. */
module Py {

  /** A parsed JSON value as Python sees it. */
  datatype Value =
    | Null
    | Bool(b: bool)
    | Num(n: real)
    | Str(s: string)
    | Arr(items: seq<Value>)
    | Obj(fields: map<string, Value>)

  /** The exceptions the processor can raise on malformed input. */
  datatype Error = TypeError | ValueError | AttributeError

  datatype Option<+T> = None | Some(value: T)

  /** A computation that returns a value or raises. */
  datatype Result<+T> = Ok(value: T) | Err(error: Error)

  /** What the Python runtime supplies and the model leaves abstract:
      the regular-expression class `\w` (Unicode tables), `float()` on a
      string, and the ISO-8601 text of `datetime.now()`. */
  datatype Runtime = Runtime(isWord: char -> bool, parseFloat: string -> Option<real>, now: string)

  /** `bool(v)`: None, False, 0, "", [] and {} are false. */
  predicate Truthy(v: Value)
    ensures Truthy(v) <==> v !in {Null, Bool(false), Num(0.0), Str(""), Arr([]), Obj(map[])}
  {
    match v
    case Null => false
    case Bool(b) => b
    case Num(n) => n != 0.0
    case Str(s) => s != ""
    case Arr(xs) => xs != []
    case Obj(m) => m != map[]
  }

  /** `d.get(key, default)` on a dict. */
  function Get(m: map<string, Value>, key: string, default: Value): Value {
    if key in m then m[key] else default
  }

  /** `float(v)`: a bool becomes 0.0 or 1.0, a number itself, a string is
      parsed, and None, a list or a dict raise TypeError. */
  function ToFloat(rt: Runtime, v: Value): (r: Result<real>)
    ensures v.Num? ==> r == Ok(v.n)
    ensures v.Bool? ==> r == Ok(if v.b then 1.0 else 0.0)
    ensures v.Str? && rt.parseFloat(v.s).Some? ==> r == Ok(rt.parseFloat(v.s).value)
    ensures r.Err? <==> (v.Null? || v.Arr? || v.Obj? || (v.Str? && rt.parseFloat(v.s).None?))
    ensures r.Err? && !v.Str? ==> r.error == TypeError
  {
    match v
    case Null => Err(TypeError)
    case Bool(b) => Ok(if b then 1.0 else 0.0)
    case Num(n) => Ok(n)
    case Str(s) =>
      (match rt.parseFloat(s)
       case Some(x) => Ok(x)
       case None => Err(ValueError))
    case Arr(_) => Err(TypeError)
    case Obj(_) => Err(TypeError)
  }

  /** `round(x)` on a float: the nearest integer, ties to the even one. */
  function Round(x: real): (r: int)
    ensures x - 0.5 <= r as real <= x + 0.5
    ensures (r as real - x == 0.5 || x - r as real == 0.5) ==> r % 2 == 0
  {
    var f := x.Floor;
    var d := x - f as real;
    if d < 0.5 then f
    else if d > 0.5 then f + 1
    else if f % 2 == 0 then f
    else f + 1
  }

  /** The two properties of `Round` fix its result: no other integer has them. */
  lemma RoundUnique(x: real, n: int)
    requires x - 0.5 <= n as real <= x + 0.5
    requires (n as real - x == 0.5 || x - n as real == 0.5) ==> n % 2 == 0
    ensures n == Round(x)
  {
  }
}
