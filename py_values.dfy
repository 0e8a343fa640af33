/** The Python values the scripts handle: the parsed YAML configuration
    (dictionaries, lists and scalars), the exceptions raised when a lookup
    or conversion fails, and the few builtins applied to them. */
module PyValues {
  import opened Wrappers
  import opened Text

  /** The exceptions the modelled code can raise. AttributeError (a method
      called on a value of the wrong type) is folded into TypeError. */
  datatype Error =
    | KeyError(key: string)
    | IndexError
    | ValueError(text: string)
    | TypeError
    | StopIteration
    | SystemExit(code: int)
    | CalledProcessError(command: seq<string>)

  /** A computation that either yields a value or raises. */
  datatype Result<T> = Ok(value: T) | Err(error: Error) {
    predicate IsFailure() { Err? }

    function PropagateFailure<U>(): Result<U>
      requires Err?
    {
      Err(error)
    }

    function Extract(): T
      requires Ok?
    {
      value
    }
  }

  /** A value of the YAML-loaded configuration. */
  datatype Value =
    | VNone
    | VBool(b: bool)
    | VInt(i: int)
    | VFloat(f: real)
    | VStr(s: string)
    | VList(items: seq<Value>)
    | VDict(entries: map<string, Value>)

  /** `v[key]` on a dictionary. */
  function GetItem(v: Value, key: string): (r: Result<Value>)
    ensures r.Ok? <==> v.VDict? && key in v.entries
    ensures r.Ok? ==> r.value == v.entries[key]
    ensures v.VDict? && key !in v.entries ==> r == Err(KeyError(key))
  {
    if !v.VDict? then Err(TypeError)
    else if key in v.entries then Ok(v.entries[key])
    else Err(KeyError(key))
  }

  /** `v.get(key, default)` on a dictionary. */
  function Get(v: Value, key: string, default: Value): (r: Result<Value>)
    ensures r.Ok? <==> v.VDict?
    ensures v.VDict? ==> r.value == if key in v.entries then v.entries[key] else default
  {
    if !v.VDict? then Err(TypeError)
    else if key in v.entries then Ok(v.entries[key])
    else Ok(default)
  }

  /** A value used where the code needs a string (a path, a format operand). */
  function AsStr(v: Value): Result<string>
  {
    if v.VStr? then Ok(v.s) else Err(TypeError)
  }

  /** A value iterated over by a `for` loop; only lists are modelled. */
  function AsList(v: Value): Result<seq<Value>>
  {
    if v.VList? then Ok(v.items) else Err(TypeError)
  }

  /** Strings wrapped as values, in the same order. */
  function StrValues(ss: seq<string>): (vs: seq<Value>)
    ensures |vs| == |ss| && forall i :: 0 <= i < |ss| ==> vs[i] == VStr(ss[i])
  {
    seq(|ss|, i requires 0 <= i < |ss| => VStr(ss[i]))
  }

  /** Every value of `vs` used as a string. */
  function AsStrs(vs: seq<Value>): (r: Result<seq<string>>)
    ensures r.Ok? <==> forall i :: 0 <= i < |vs| ==> vs[i].VStr?
    ensures r.Ok? ==> StrValues(r.value) == vs
    decreases |vs|
  {
    if vs == [] then Ok([])
    else if !vs[0].VStr? then Err(TypeError)
    else
      match AsStrs(vs[1..])
      case Err(e) => Err(e)
      case Ok(rest) =>
        assert vs == [vs[0]] + vs[1..];
        Ok([vs[0].s] + rest)
  }

  /** Python truthiness: `if v:`. */
  predicate Truthy(v: Value)
  {
    match v
    case VNone => false
    case VBool(b) => b
    case VInt(i) => i != 0
    case VFloat(f) => f != 0.0
    case VStr(s) => s != ""
    case VList(items) => items != []
    case VDict(entries) => entries != map[]
  }

  /** `str(v)`. Python renders a float, list or dictionary in its own
      notation, which the model does not produce: it reports TypeError for
      those instead. */
  function ToStr(v: Value): (r: Result<string>)
    ensures v.VStr? ==> r == Ok(v.s)
    ensures v.VInt? ==> r == Ok(IntToString(v.i))
    ensures r.Ok? <==> !(v.VFloat? || v.VList? || v.VDict?)
  {
    match v
    case VNone => Ok("None")
    case VBool(b) => Ok(if b then "True" else "False")
    case VInt(i) => Ok(IntToString(i))
    case VStr(s) => Ok(s)
    case _ => Err(TypeError)
  }

  /** `int(v)`: integers pass through, booleans become 0 or 1, floats are
      truncated toward zero, strings are parsed as base-10 literals
      (ValueError otherwise), anything else is a TypeError. */
  function ToInt(v: Value): (r: Result<int>)
    ensures v.VStr? ==> (r.Ok? <==> IsIntLiteral(Strip(v.s)))
    ensures v.VStr? && r.Err? ==> r.error == ValueError(v.s)
    ensures v.VNone? || v.VList? || v.VDict? ==> r == Err(TypeError)
    ensures v.VFloat? ==> r.Ok? && Magnitude(r.value as real) <= Magnitude(v.f) < Magnitude(r.value as real) + 1.0
                          && (r.value == 0 || (r.value < 0 <==> v.f < 0.0))
  {
    match v
    case VInt(i) => Ok(i)
    case VFloat(f) => Ok(if f >= 0.0 then f.Floor else 0 - (0.0 - f).Floor)
    case VBool(b) => Ok(if b then 1 else 0)
    case VStr(s) =>
      (match ParseInt(s)
       case Some(i) => Ok(i)
       case None => Err(ValueError(s)))
    case _ => Err(TypeError)
  }

  function Magnitude(x: real): real
  {
    if x < 0.0 then 0.0 - x else x
  }

  /** `xs.index(x)`: the position of the first occurrence, or ValueError. */
  function Index(xs: seq<string>, x: string): (r: Result<nat>)
    ensures r.Ok? <==> x in xs
    ensures r.Ok? ==> r.value < |xs| && xs[r.value] == x && x !in xs[..r.value]
    ensures r.Err? ==> r.error == ValueError(x)
    decreases |xs|
  {
    if xs == [] then Err(ValueError(x))
    else if xs[0] == x then Ok(0)
    else
      match Index(xs[1..], x)
      case Err(e) => Err(e)
      case Ok(i) =>
        assert xs[..i + 1] == [xs[0]] + xs[1..][..i];
        Ok(i + 1)
  }
}
