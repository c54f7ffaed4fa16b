/** Dynamically typed Python values, as they appear in request payloads, records and output dicts. */
module Values {
  import opened Wrappers
  import opened Dates

  datatype Value =
    | Null
    | Bool(b: bool)
    | Int(i: int)
    | Float(r: real)
    | Str(s: string)
    | Dict(m: map<string, Value>)
    | List(items: seq<Value>)
    | Date(d: DateTime)

  /** `isinstance(v, int)`: Python's `bool` is a subclass of `int`. */
  predicate IsInt(v: Value)
  {
    v.Int? || v.Bool?
  }

  /** The integer a Python `int` (or `bool`) holds. */
  function AsInt(v: Value): int
    requires IsInt(v)
  {
    if v.Bool? then (if v.b then 1 else 0) else v.i
  }

  /** Python truthiness of a value. */
  predicate Truthy(v: Value)
  {
    match v
    case Null => false
    case Bool(b) => b
    case Int(i) => i != 0
    case Float(r) => r != 0.0
    case Str(s) => s != ""
    case Dict(m) => m != map[]
    case List(items) => items != []
    case Date(_) => true
  }

  /** The number a Python `bool`, `int` or `float` stands for in a comparison. */
  function NumberOf(v: Value): Option<real>
  {
    match v
    case Bool(b) => Some(if b then 1.0 else 0.0)
    case Int(i) => Some(i as real)
    case Float(r) => Some(r)
    case _ => None
  }

  /**
   * Python's `==` on scalar values: numbers compare by value across `bool`, `int` and `float`
   * (`15 == 15.0`, `True == 1`); other values compare structurally.
   */
  predicate PyEq(a: Value, b: Value)
  {
    if NumberOf(a).Some? && NumberOf(b).Some? then NumberOf(a) == NumberOf(b) else a == b
  }

  /** `==` on values is an equivalence relation. */
  lemma PyEqEquivalence(a: Value, b: Value, c: Value)
    ensures PyEq(a, a)
    ensures PyEq(a, b) ==> PyEq(b, a)
    ensures PyEq(a, b) && PyEq(b, c) ==> PyEq(a, c)
  {
  }

  /** An `int` and a `float` holding the same number are equal. */
  lemma PyEqAcrossNumbers(i: int)
    ensures PyEq(Int(i), Float(i as real)) && PyEq(Bool(true), Int(1)) && !PyEq(Int(i), Str(""))
  {
  }

  function OptStr(s: Option<string>): Value
  {
    if s.Some? then Str(s.value) else Null
  }

  function OptBool(b: Option<bool>): Value
  {
    if b.Some? then Bool(b.value) else Null
  }

  function OptReal(r: Option<real>): Value
  {
    if r.Some? then Float(r.value) else Null
  }

  function OptDate(d: Option<DateTime>): Value
  {
    if d.Some? then Date(d.value) else Null
  }
}
