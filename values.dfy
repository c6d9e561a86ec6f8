/** Python values as they appear in the agent's context dictionary, in parsed
    action descriptors and in the configuration tree, together with the few
    Python built-ins the core applies to them: truthiness, `in`, `dict.get`
    and `str()`. */
module Values {

  datatype Option<T> = None | Some(value: T)

  /** A value, or the message of the exception raised instead. */
  datatype Result<T> = Success(value: T) | Failure(error: string)

  /** A JSON-like Python value. Floats are not modelled. */
  datatype Value =
    | Null
    | Bool(b: bool)
    | Int(i: int)
    | Str(s: string)
    | Arr(items: seq<Value>)
    | Obj(fields: map<string, Value>)

  /** A Python `dict` with string keys. */
  type Dict = map<string, Value>

  /** Python truthiness: `None`, `False`, `0`, `""`, `[]` and `{}` are false. */
  predicate Truthy(v: Value) {
    match v
    case Null => false
    case Bool(b) => b
    case Int(i) => i != 0
    case Str(s) => s != ""
    case Arr(xs) => xs != []
    case Obj(m) => m != map[]
  }

  /** `d.get(k, default)` */
  function GetOr(d: Dict, k: string, default: Value): Value {
    if k in d then d[k] else default
  }

  /** `d.get(k)` as an optional value. */
  function Lookup(d: Dict, k: string): Option<Value> {
    if k in d then Some(d[k]) else None
  }

  /** The name Python gives the type of a value. */
  function TypeName(v: Value): string {
    match v
    case Null => "NoneType"
    case Bool(_) => "bool"
    case Int(_) => "int"
    case Str(_) => "str"
    case Arr(_) => "list"
    case Obj(_) => "dict"
  }

  /** The message of the AttributeError raised by `v.name` on a value that has no such method. */
  function NoAttribute(v: Value, name: string): string {
    "'" + TypeName(v) + "' object has no attribute '" + name + "'"
  }

  /** `k` occurs in `s` as a contiguous piece. */
  predicate IsSubstring(k: string, s: string)
    decreases |s|
  {
    k <= s || (s != [] && IsSubstring(k, s[1..]))
  }

  /** Python's `k in v` for a string `k`: a key test on a dict, a substring test
      on a str, a membership test on a list; None stands for the TypeError
      raised on any other value. */
  function Contains(v: Value, k: string): (r: Option<bool>)
    ensures r.Some? <==> (v.Obj? || v.Str? || v.Arr?)
    ensures v.Obj? ==> r == Some(k in v.fields)
  {
    match v
    case Obj(m) => Some(k in m)
    case Str(s) => Some(IsSubstring(k, s))
    case Arr(xs) => Some(Str(k) in xs)
    case _ => None
  }

  function DigitChar(d: nat): char
    requires d < 10
  {
    "0123456789"[d]
  }

  /** Decimal digits of a natural number. */
  function NatToString(n: nat): (r: string)
    ensures |r| >= 1
    decreases n
  {
    if n < 10 then [DigitChar(n)] else NatToString(n / 10) + [DigitChar(n % 10)]
  }

  function IntToString(i: int): string {
    if i < 0 then "-" + NatToString(-i) else NatToString(i)
  }

  /** Python's `str(v)` (also what an f-string inserts). The text of a list or
      a dict depends on insertion order, which a map does not keep, so it is
      supplied by `show`. */
  function Format(v: Value, show: Value -> string): string {
    match v
    case Null => "None"
    case Bool(b) => if b then "True" else "False"
    case Int(i) => IntToString(i)
    case Str(s) => s
    case _ => show(v)
  }
}
